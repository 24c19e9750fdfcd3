# Kristaps Grinbergs' site theme, modelled in Dafny

This project models the theme of a personal web site built with the Publish
static-site generator and the Plot HTML library. The theme decides, for
every kind of page Publish asks for, what goes into the page's `<head>` and
which blocks make up its `<body>`:

- the home page: the main section, then an "about" section and the projects,
  each after a divider;
- a section page: the section's items;
- an item page: one post;
- a static page: the talks list on `talks`, the about-me content on `about`,
  and nothing else on any other page;
- the tag list: every tag, sorted;
- a tag's page: the items carrying the tag, newest first.

Old blog addresses live on as stub pages. Each stub page has the old slug as
its path and redirects through a `<meta http-equiv="refresh">` to
`/blog/<slug>`.

Pages are modelled as abstract documents:

- A head is a sequence of `HeadMetadata.HeadEntry`. A body is a sequence of
  `KristapsTheme.Block`.
- CSS classes and layout wrappers are dropped.
- Fixed prose sections are bare tags: the main section, the home page's
  about section, the about page's content and the footer. The home page's
  projects block carries the entries of `Projects.ProjectsSection()`.
- The text the theme derives from its inputs is kept, and so are the order
  of the blocks and the links they carry.

Modules:

- `OldBlogPostsFactory` (`old_blog_posts.dfy`): the 21 old slugs, their stub
  pages and the redirect decision.
- `HeadMetadata` (`head_metadata.dfy`): both head builders. The title and
  description are resolved by a method that reassigns its locals as the Swift
  code does, and that method is proved equal to the pure definitions. Each
  head is then described entry kind by entry kind: how many titles,
  descriptions, card types, stylesheets, feeds, refreshes, favicons and social
  images it holds, and which ones.
- `Talks` (`talks.dfy`): the talks page. A talk entry has a title, a date
  line, then a heading and an embed for each medium the talk has, in the
  order video, slides, audio. The video iframe and the slides script are
  modelled attribute by attribute.
- `Projects` (`projects.dfy`): the fixed project list and each project's
  entry. Every entry can be read back into its project.
- `KristapsTheme` (`theme.dfy`): the page makers, the site header with its
  navigation, and the item list.
- Stand-ins for the libraries the theme calls:
  - `Markup` (`markup.dfy`): Plot attributes, and the rule that an attribute
    with an empty value is dropped unless it asks to be kept.
  - `Publishing` (`publishing.dfy`): Publish's site, location, item, section
    and page values, and the query for the items tagged with a tag, sorted
    by date descending.
  - `Strings` (`strings.dfy`): string order, sorting a set of tags, and
    ASCII lower-casing.
  - `Wrappers` (`wrappers.dfy`): `Option`.

Reading the talks file is modelled by its outcome. `Talks.GetTalks` and the
static page makers take an `Option<seq<Talk>>`: `None` when the file cannot
be read or decoded, otherwise the decoded list.

The card type is stated twice in both heads. A fixed
`<meta name="twitter:card" content="summary">` is emitted, and so is the
card type chosen from the location. `HeadMetadata.HeadCardTwice` shows both
are present, and that they disagree whenever the location has an image.

## Model

| member | source | states |
|---|---|---|
| OldBlogPostsFactory.Pages | Sources/WebSite/KristapsTheme/OldBlogPostsFactory.swift:31-35 | one stub page per old slug, in list order, at the slug's path |
| OldBlogPostsFactory.NeedRefresh | Sources/WebSite/KristapsTheme/OldBlogPostsFactory.swift:37-39 | a path is redirected exactly when it is one of the old slugs, and then to `/blog/` followed by the path |
| OldBlogPostsFactory.StripBlogPrefix | Sources/WebSite/KristapsTheme/OldBlogPostsFactory.swift:37-39 | inverse of the redirect target: defined exactly on addresses starting with `/blog/`, which it splits back into prefix and slug |
| OldBlogPostsFactory.RefreshTargetRoundTrip | Sources/WebSite/KristapsTheme/OldBlogPostsFactory.swift:37-39 | the requested path can be read back from every redirect target |
| OldBlogPostsFactory.RefreshInjective | Sources/WebSite/KristapsTheme/OldBlogPostsFactory.swift:37-39 | two redirected paths with the same target are the same path |
| OldBlogPostsFactory.StubPagesRedirect | Sources/WebSite/KristapsTheme/OldBlogPostsFactory.swift:31-39 | every stub page's path is redirected to `/blog/` followed by that path |
| OldBlogPostsFactory.StubPathsDistinct | Sources/WebSite/KristapsTheme/OldBlogPostsFactory.swift:7-35 | there are 21 slugs and the stub pages have pairwise distinct paths |
| OldBlogPostsFactory.KnownSlugRedirects | Sources/WebSite/KristapsTheme/OldBlogPostsFactory.swift:7-39 | the slug `graphql-ios-swift` is sent to `/blog/graphql-ios-swift` |
| OldBlogPostsFactory.ExtendedSlugStays | Sources/WebSite/KristapsTheme/OldBlogPostsFactory.swift:37-39 | matching is on the whole path: a slug with a suffix is not redirected |
| OldBlogPostsFactory.CaseVariantStays | Sources/WebSite/KristapsTheme/OldBlogPostsFactory.swift:37-39 | matching is case-sensitive |
| OldBlogPostsFactory.SlugIsNotStaticPath | Sources/WebSite/KristapsTheme/OldBlogPostsFactory.swift:7-29 | no old slug is `talks` or `about` |
| HeadMetadata.ResolvedTitle | Sources/WebSite/KristapsTheme/KristapsTheme+Header.swift:16-22 | the title is the site name exactly when the location has no title; otherwise it is the location's title, the separator and the site name, in that order; it always ends with the site name |
| HeadMetadata.ResolvedDescription | Sources/WebSite/KristapsTheme/KristapsTheme+Header.swift:24-28 | the location's description, or the site's when the location's is empty |
| HeadMetadata.ResolveTitleAndDescription | Sources/WebSite/KristapsTheme/KristapsTheme+Header.swift:86-98 | the step-by-step reassignment of the local title and description gives the values the pure definitions give, case by case |
| HeadMetadata.CountConcat | Sources/WebSite/KristapsTheme/KristapsTheme+Header.swift:30-75 | counting entries of a kind distributes over concatenation of head fragments |
| HeadMetadata.CountedMember | Sources/WebSite/KristapsTheme/KristapsTheme+Header.swift:30-75 | an entry present in a head is counted under its kind |
| HeadMetadata.StylesheetsCount | Sources/WebSite/KristapsTheme/KristapsTheme+Header.swift:69 | the stylesheet group holds one stylesheet link per path and nothing of any other kind |
| HeadMetadata.StylesheetsMembership | Sources/WebSite/KristapsTheme/KristapsTheme+Header.swift:69 | the stylesheet group holds a link for every path and only for those paths |
| HeadMetadata.HeadWithRefreshCount | Sources/WebSite/KristapsTheme/KristapsTheme+Header.swift:30-75 | the redirecting head holds exactly one title, one description and one card type, one stylesheet per path, one feed link when a feed path is given, one refresh when a target is given, and no favicon or social image |
| HeadMetadata.HeadWithRefreshMembers | Sources/WebSite/KristapsTheme/KristapsTheme+Header.swift:30-75 | the redirecting head holds the resolved title and description, the card type chosen from the location, the author meta, the feed link to the feed path made absolute, titled "Subscribe to" the site name unless a title is given, and the refresh to the given target |
| HeadMetadata.HeadWithRefreshStylesheetsWithin | Sources/WebSite/KristapsTheme/KristapsTheme+Header.swift:69 | every stylesheet link of the redirecting head is for one of the given paths |
| HeadMetadata.HeadWithRefreshStylesheetsListed | Sources/WebSite/KristapsTheme/KristapsTheme+Header.swift:69 | every given path has its stylesheet link in the redirecting head |
| HeadMetadata.HeadWithRefreshShape | Sources/WebSite/KristapsTheme/KristapsTheme+Header.swift:7-76 | the redirecting head, summed up: the common head facts, a refresh exactly when a target is given, no favicon and no social image, and the author meta |
| HeadMetadata.HeadCount | Sources/WebSite/KristapsTheme/KristapsTheme+Header.swift:100-143 | the plain head holds one title, one description, one card type, one stylesheet per path, a feed link when a feed path is given, no refresh, a favicon exactly when the site has one, and a social image exactly when the location or the site has an image |
| HeadMetadata.HeadMembers | Sources/WebSite/KristapsTheme/KristapsTheme+Header.swift:100-143 | the plain head holds the resolved title and description, the card type, the feed link to the feed path made absolute, the site's favicon, and the location's image or else the site's |
| HeadMetadata.HeadCardTwice | Sources/WebSite/KristapsTheme/KristapsTheme+Header.swift:112-131 | the plain head holds both the fixed `twitter:card` "summary" meta and the computed card type, and these differ exactly when the location has an image |
| HeadMetadata.HeadStylesheetsWithin | Sources/WebSite/KristapsTheme/KristapsTheme+Header.swift:132 | every stylesheet link of the plain head is for one of the given paths |
| HeadMetadata.HeadStylesheetsListed | Sources/WebSite/KristapsTheme/KristapsTheme+Header.swift:132 | every given path has its stylesheet link in the plain head |
| HeadMetadata.HeadWithRefreshOmitsFavicon | Sources/WebSite/KristapsTheme/KristapsTheme+Header.swift:30-75 | no entry of the redirecting head is a favicon |
| HeadMetadata.HeadWithRefreshOmitsImage | Sources/WebSite/KristapsTheme/KristapsTheme+Header.swift:30-75 | no entry of the redirecting head is a social image |
| HeadMetadata.HeadOmitsRefresh | Sources/WebSite/KristapsTheme/KristapsTheme+Header.swift:100-143 | no entry of the plain head is a refresh instruction |
| HeadMetadata.HeadShape | Sources/WebSite/KristapsTheme/KristapsTheme+Header.swift:78-144 | the plain head, summed up: the common head facts, no refresh, the favicon exactly when the site has one, the social image from the location or else from the site |
| Talks.GetTalks | Sources/WebSite/KristapsTheme/TalksProvider.swift:23-33 | an unreadable or undecodable file yields no talks; a decoded file yields its talks unchanged |
| Talks.VideoIframe | Sources/WebSite/KristapsTheme/KristapsTheme+Talks.swift:55-63 | an `iframe` carrying the talk's video address as `src`, which is rendered exactly when the address is not empty, and a rendered `allowfullscreen` |
| Talks.VideoSource | Sources/WebSite/KristapsTheme/KristapsTheme+Talks.swift:55-63 | looking up `src` on the iframe gives the video address |
| Talks.SlidesScript | Sources/WebSite/KristapsTheme/KristapsTheme+Talks.swift:65-73 | a `script` whose `async` attribute is rendered although empty, whose `data-id` is the deck id and is rendered exactly when that id is not empty, and whose `src` is the deck loader |
| Talks.SlidesDeck | Sources/WebSite/KristapsTheme/KristapsTheme+Talks.swift:65-73 | looking up `data-id` on the script gives the deck id |
| Talks.EmbedMarkup | Sources/WebSite/KristapsTheme/KristapsTheme+Talks.swift:31-77 | the video embed is the iframe with the talk's address, the slides embed is the script with the deck id, and the audio player is left to the markup library |
| Talks.EmbedFor | Sources/WebSite/KristapsTheme/KristapsTheme+Talks.swift:31-51 | a talk has an embed of a medium exactly when its field for that medium is set; the embed is of that medium and carries the field's value: the video address, the slides id, or the audio address with controls shown |
| Talks.TalksSectionFor | Sources/WebSite/KristapsTheme/KristapsTheme+Talks.swift:7-18 | the section is headed "Talks" and has one entry per talk, in order: entry i is the entry of talk i, opening with its title |
| Talks.HeadingsLabelled | Sources/WebSite/KristapsTheme/KristapsTheme+Talks.swift:31-45 | every medium heading of a talk entry reads "Video", "Slides" or "Audio" after its medium |
| Talks.TalkMediaSources | Sources/WebSite/KristapsTheme/KristapsTheme+Talks.swift:31-73 | a talk's entry embeds the iframe whose `src` is the talk's video address, the script whose `data-id` is the talk's slides id, and the audio player for the talk's audio address |
| Talks.TalkItemContents | Sources/WebSite/KristapsTheme/KristapsTheme+Talks.swift:20-53 | a talk entry is the title, the date line ("date \| event") and two parts per medium present, and nothing else |
| Talks.TalkItemOrder | Sources/WebSite/KristapsTheme/KristapsTheme+Talks.swift:20-53 | the parts of an entry come in the order title, date, video, slides, audio, and each medium's heading directly precedes its embed |
| Talks.MediumPresence | Sources/WebSite/KristapsTheme/KristapsTheme+Talks.swift:31-51 | a medium's heading is in the entry exactly when the talk has that medium, and the entry's embed of that medium is exactly the one made from the talk's field |
| Talks.UnreadableFileListsNothing | Sources/WebSite/KristapsTheme/TalksProvider.swift:29-32 | when the talks file cannot be read, the talks section lists no talk |
| Projects.DefaultLinkIsNone | Sources/WebSite/KristapsTheme/KristapsTheme+Projects.swift:12-17 | a project built without a link has none, and keeps its fields as given |
| Projects.ProjectLink | Sources/WebSite/KristapsTheme/KristapsTheme+Projects.swift:89-95 | the App Store badge links to the project's link and opens it in a new browsing context |
| Projects.ProjectsSection | Sources/WebSite/KristapsTheme/KristapsTheme+Projects.swift:61-68 | one entry per listed project, in list order |
| Projects.ProjectFromItem | Sources/WebSite/KristapsTheme/KristapsTheme+Projects.swift:70-87 | reads the project back from an entry with the shape `projectItem` produces |
| Projects.ProjectItemRoundTrip | Sources/WebSite/KristapsTheme/KristapsTheme+Projects.swift:70-87 | reading an entry back gives the project it was made from |
| Projects.ProjectItemInjective | Sources/WebSite/KristapsTheme/KristapsTheme+Projects.swift:70-87 | distinct projects have distinct entries |
| Projects.ProjectItemShape | Sources/WebSite/KristapsTheme/KristapsTheme+Projects.swift:70-95 | an entry is the title, the description, the picture under `/images/`, then the store badge exactly when the project has a link, pointing at that link |
| Projects.ProjectsSectionRoundTrip | Sources/WebSite/KristapsTheme/KristapsTheme+Projects.swift:61-87 | every entry of the section reads back as the project at the same position of the list |
| Projects.ProjectsComplete | Sources/WebSite/KristapsTheme/KristapsTheme+Projects.swift:20-58 | ten projects are listed, each with a title, a description and a picture |
| Projects.StoreLinks | Sources/WebSite/KristapsTheme/KristapsTheme+Projects.swift:20-58 | exactly the fourth and the seventh to tenth projects carry a store link |
| KristapsTheme.NavLinks | Sources/WebSite/KristapsTheme/KristapsTheme.swift:214-222 | one navigation link per section, in section order |
| KristapsTheme.ItemList | Sources/WebSite/KristapsTheme/KristapsTheme.swift:231-257 | one entry per item, in the given order |
| KristapsTheme.AllPagesFramed | Sources/WebSite/KristapsTheme/KristapsTheme.swift:33-176 | the body of every page other than the home page opens with the header, closes with the footer, and has neither in between |
| KristapsTheme.IndexFramed | Sources/WebSite/KristapsTheme/KristapsTheme.swift:16-31 | the home page body opens with the header, closes with the footer, and has neither in between |
| KristapsTheme.IndexShowsProjects | Sources/WebSite/KristapsTheme/KristapsTheme.swift:21-29 | the home page's projects block has one entry per listed project, and each entry reads back as the project at the same position |
| KristapsTheme.HeaderNavigation | Sources/WebSite/KristapsTheme/KristapsTheme.swift:184-229 | the header links the owner's name home; the navigation is there exactly when there is more than one section, and then lists home first and every section after it, linked to its path and labelled with its lower-cased title |
| KristapsTheme.HeaderIgnoresSelection | Sources/WebSite/KristapsTheme/KristapsTheme.swift:184-229 | the header does not depend on the selected section |
| KristapsTheme.ItemListLinks | Sources/WebSite/KristapsTheme/KristapsTheme.swift:231-257 | each entry's title and "Read more" link both lead to its item, and the entry shows the item's short date |
| KristapsTheme.StaticPageDispatch | Sources/WebSite/KristapsTheme/KristapsTheme.swift:99-104 | a static page shows the talks exactly when its path is `talks`, the about-me content exactly when its path is `about`, never both, and only header and footer otherwise |
| KristapsTheme.TalksPageLists | Sources/WebSite/KristapsTheme/KristapsTheme.swift:99-104 | the talks page lists every talk of a readable talks file in order, and none when the file cannot be read |
| KristapsTheme.StaticPageRefresh | Sources/WebSite/KristapsTheme/KristapsTheme.swift:91-98 | a static page's head refreshes exactly when its path is an old slug, and then to that post under `/blog/` |
| KristapsTheme.StubPageHead | Sources/WebSite/KristapsTheme/KristapsTheme.swift:91-98 | an old post's stub page has a head that refreshes to the post and is titled with the site name alone |
| KristapsTheme.StubPageRedirects | Sources/WebSite/KristapsTheme/KristapsTheme.swift:91-106 | an old post's stub page refreshes to the post, is titled with the site name alone, and shows only header and footer |
| KristapsTheme.StubPagesRedirect | Sources/WebSite/KristapsTheme/KristapsTheme.swift:91-106 | each of the stub pages refreshes to its own slug under `/blog/` and shows only header and footer |
| KristapsTheme.TagListSorted | Sources/WebSite/KristapsTheme/KristapsTheme.swift:124-132 | the tag list page shows exactly the page's tags, each once, in strictly ascending order |
| KristapsTheme.TagListOrderFree | Sources/WebSite/KristapsTheme/KristapsTheme.swift:124-132 | the tag list page does not depend on the order or repetition of the tags it is given |
| KristapsTheme.TagDetailsListsTagged | Sources/WebSite/KristapsTheme/KristapsTheme.swift:141-176 | a tag's page links to the tag list and lists exactly the site's items that carry the tag, newest first, each as often as the site holds it and no other item |
| KristapsTheme.SectionPageHead | Sources/WebSite/KristapsTheme/KristapsTheme.swift:33-37 | a section page uses the plain head with the default separator, stylesheet and feed, links the feed at `/feed.rss` titled "Subscribe to" the site name, and has no refresh |
| Strings.SortedSet | Sources/WebSite/KristapsTheme/KristapsTheme.swift:124 | `sorted()` on the set of tags: strictly ascending, with exactly the given tags |
| Strings.SortedSetDeterministic | Sources/WebSite/KristapsTheme/KristapsTheme.swift:124 | the sorted tags depend only on which tags there are |
| Strings.AscendingUnique | Sources/WebSite/KristapsTheme/KristapsTheme.swift:124 | two strictly ascending lists with the same elements are equal |
| Strings.LessTotal | Sources/WebSite/KristapsTheme/KristapsTheme.swift:124 | any two different tags are ordered one way or the other |
| Strings.LessTransitive | Sources/WebSite/KristapsTheme/KristapsTheme.swift:124 | the tag order is transitive |
| Strings.Lowercased | Sources/WebSite/KristapsTheme/KristapsTheme.swift:219 | same length, each letter mapped to lower case, and no upper-case ASCII letter left |
| Publishing.AllItems | Sources/WebSite/KristapsTheme/KristapsTheme.swift:164-170 | the site's items are exactly the items of its sections |
| Publishing.Tagged | Sources/WebSite/KristapsTheme/KristapsTheme.swift:164-170 | exactly the given items that carry the tag, each as often as it is given, and no other item |
| Publishing.TaggedListing | Sources/WebSite/KristapsTheme/KristapsTheme.swift:164-170 | the tagged-items query over the whole site lists exactly the items of its sections that carry the tag, each as often as the sections hold it, newest first |
| Publishing.AbsoluteStringShape | Sources/WebSite/KristapsTheme/KristapsTheme+Header.swift:73 | a path made absolute starts with "/" and ends with the path; it is the path itself exactly when the path already starts with "/"; doing it twice changes nothing |
| Publishing.DefaultFeedHref | Sources/WebSite/KristapsTheme/KristapsTheme+Header.swift:71-74 | the default feed path is linked as `/feed.rss` |
| Publishing.SortByDateDescending | Sources/WebSite/KristapsTheme/KristapsTheme.swift:164-170 | newest first, and a permutation of the input |
| Publishing.ItemsTaggedNewestFirst | Sources/WebSite/KristapsTheme/KristapsTheme.swift:164-170 | newest first, a permutation of the tagged items, and holding an item exactly when it is one of the inputs and carries the tag |
| Markup.AttrValue | Sources/WebSite/KristapsTheme/KristapsTheme+Talks.swift:55-73 | an attribute's value is found exactly when an attribute of that name is present, and is that attribute's value |
| Markup.Rendered | Sources/WebSite/KristapsTheme/KristapsTheme+Talks.swift:65-73 | the rendered attributes are exactly those with a value or marked to be kept when empty |

## Left out

- Reading `Content/talks.yml` and decoding it: this is file I/O and YAML decoding. The outcome is a parameter, and the error message printed on failure is not modelled.
- Dates: a date is an opaque value with a timestamp, used for ordering, and its short form as text. Date formatting is not modelled.
- Markdown and HTML bodies of items: kept as opaque strings.
- CSS classes, the `wrapper` div, the `divider` markup and the text of the fixed sections: these do not depend on any input. The main section, the about section, the about-me content, the social items and the footer are bare tags.
- Audio player markup: `talkAudio` hands the URL to Plot's `audioPlayer` with controls shown. The model keeps the URL and the flag, not Plot's markup.
- `site.url(for:)`: the canonical URL and the social image are kept as the location's or image's path, not as absolute URLs.
- Publish's other path-to-text conversions: only the feed link's `Path.absoluteString` is modelled (`Publishing.AbsoluteString`). Stylesheet paths and item paths in links are kept as given.
- Tag page addresses: `site.path(for: tag)` and the per-item tag links are not modelled. A tag list entry is the tag itself, and an item's tags are the item's tag list.
- Plot's companion metas: Plot's `.title`, `.description` and `.socialImageLink` also emit their own `og:` and `twitter:` metas. The model records one entry per builder call.
- Strings.Less: the order of `Tag` values is modelled as lexicographic order by character code. Swift compares strings by Unicode canonical equivalence, which this order does not capture.
- Strings.Lowercased: maps ASCII letters only. Swift's `lowercased()` covers all of Unicode.
- The `HTML?` results of the tag page makers are always present here, as in the Swift code. The optional result type itself is not modelled.
- Publish's own pipeline is not part of this model: `main.swift`'s publishing steps, the site definition and the section list. The site and its sections are a `Context` parameter.
