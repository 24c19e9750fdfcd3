/**
 * Legacy blog post redirects. Posts that used to live at the site root
 * (`/<slug>`) now live under `/blog/`; each old slug gets an empty stub page
 * whose head refreshes the browser to the new address.
 */
module OldBlogPostsFactory {
  import opened Wrappers
  import opened Publishing

  // The old post slugs, one constant each so that a proof about one slug
  // need not unfold the whole list.
  const Slug0: string := "animating-shapes-in-ios"
  const Slug1: string := "apple-passkit"
  const Slug2: string := "clearing-subscriptions"
  const Slug3: string := "custom-font-dynamic-type"
  const Slug4: string := "dark-side-appstore"
  const Slug5: string := "different-flavors-of-websockets-vapor"
  const Slug6: string := "embracing-dynamic-type"
  const Slug7: string := "graphql-advances-with-swift"
  const Slug8: string := "graphql-ios-swift"
  const Slug9: string := "graphql-subscriptions"
  const Slug10: string := "ignorance-of-cache"
  const Slug11: string := "index"
  const Slug12: string := "nstimer-vs-cadisplaylink"
  const Slug13: string := "swiftui-launch-screen"
  const Slug14: string := "swiftui-mapview"
  const Slug15: string := "swiftui-modal-view"
  const Slug16: string := "uiview-vs-calayer"
  const Slug17: string := "websockets-ios-13-swift"
  const Slug18: string := "websockets-swift"
  const Slug19: string := "what-is-animation-core-animation"
  const Slug20: string := "wwdc-2019"
  /** The old post slugs, in the order the site lists them. */
  const Links: seq<string> := [Slug0, Slug1, Slug2, Slug3, Slug4, Slug5, Slug6, Slug7, Slug8, Slug9, Slug10, Slug11, Slug12, Slug13, Slug14, Slug15, Slug16, Slug17, Slug18, Slug19, Slug20]

  const BlogPrefix: string := "/blog/"

  /** A page at `path` made from empty content (`Content()`). */
  function StubPage(path: string): Page {
    Page(Location(path, "", "", None), "")
  }

  function StubPages(slugs: seq<string>): (r: seq<Page>)
    ensures |r| == |slugs|
    ensures forall i :: 0 <= i < |slugs| ==> r[i] == StubPage(slugs[i])
  {
    if |slugs| == 0 then [] else [StubPage(slugs[0])] + StubPages(slugs[1..])
  }

  /** One stub page per old slug, in the same order. */
  function Pages(): (r: seq<Page>)
    ensures |r| == |Links|
    ensures forall i :: 0 <= i < |r| ==> r[i] == StubPage(Links[i])
  {
    StubPages(Links)
  }

  /** The address a requested path must be sent to, if it names an old post. */
  function NeedRefresh(path: string): (r: Option<string>)
    ensures r.Some? <==> path in Links
    ensures r.Some? ==> r.value == BlogPrefix + path
  {
    if path in Links then Some(BlogPrefix + path) else None
  }

  /** Recovers the slug from a `/blog/<slug>` address. */
  function StripBlogPrefix(target: string): (r: Option<string>)
    ensures r.Some? <==> |BlogPrefix| <= |target| && target[..|BlogPrefix|] == BlogPrefix
    ensures r.Some? ==> target == BlogPrefix + r.value
  {
    if |BlogPrefix| <= |target| && target[..|BlogPrefix|] == BlogPrefix
    then Some(target[|BlogPrefix|..])
    else None
  }

  /**
   * Every redirect target is `/blog/` followed by the requested path, so the
   * request can be read back from the target.
   */
  lemma RefreshTargetRoundTrip(path: string)
    requires NeedRefresh(path).Some?
    ensures StripBlogPrefix(NeedRefresh(path).value) == Some(path)
  {
    var t := BlogPrefix + path;
    assert t[..|BlogPrefix|] == BlogPrefix;
    assert t[|BlogPrefix|..] == path;
  }

  /** Two requests that redirect redirect to the same place only if they are equal. */
  lemma RefreshInjective(p: string, q: string)
    requires NeedRefresh(p).Some? && NeedRefresh(p) == NeedRefresh(q)
    ensures p == q
  {
    RefreshTargetRoundTrip(p);
    RefreshTargetRoundTrip(q);
  }

  /** Every stub page redirects, to `/blog/` followed by its own path. */
  lemma StubPagesRedirect()
    ensures forall p :: p in Pages() ==>
      NeedRefresh(p.location.path) == Some(BlogPrefix + p.location.path)
  {
    forall p | p in Pages()
      ensures NeedRefresh(p.location.path) == Some(BlogPrefix + p.location.path)
    {
      var i :| 0 <= i < |Pages()| && Pages()[i] == p;
      assert p.location.path == Links[i];
    }
  }

  /** The slugs are pairwise distinct, so the stub pages have distinct paths. */
  lemma StubPathsDistinct()
    ensures |Links| == 21
    ensures forall i, j :: 0 <= i < j < |Pages()| ==>
      Pages()[i].location.path != Pages()[j].location.path
  {
    assert forall i, j :: 0 <= i < j < |Links| ==> Links[i] != Links[j];
  }

  /** An old slug, requested exactly, is sent to its new address. */
  lemma KnownSlugRedirects()
    ensures NeedRefresh("graphql-ios-swift") == Some("/blog/graphql-ios-swift")
  {
    assert BlogPrefix + "graphql-ios-swift" == "/blog/graphql-ios-swift";
  }

  /** Matching is exact: a path that merely starts with an old slug stays. */
  lemma ExtendedSlugStays()
    ensures NeedRefresh("graphql-ios-swift-v2") == None
  {
  }

  /** Matching is case-sensitive. */
  lemma CaseVariantStays()
    ensures NeedRefresh("GraphQL-iOS-Swift") == None
  {
  }

  /** No old slug is the path of the talks page or of the about page, so stub pages never show either. */
  lemma SlugIsNotStaticPath(slug: string)
    requires slug in Links
    ensures slug != "talks" && slug != "about"
  {
  }
}
