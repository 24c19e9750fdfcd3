/**
 * The projects section of the home page: a fixed list of projects, each
 * shown with its title, its description and its picture, and with an App
 * Store badge linking to the app when the project has a store link.
 */
module Projects {
  import opened Wrappers

  /** A project; it has no store link unless one is given. */
  datatype Project = Project(title: string, description: string, image: string, link: Option<string> := None)

  /** Building a project keeps its arguments as given and leaves the link out by default. */
  lemma DefaultLinkIsNone(title: string, description: string, image: string)
    ensures Project(title, description, image).link == None
    ensures Project(title, description, image).image == image
  {
  }

  const Project0: Project := Project(
    "Salto X",
    "Token Incentive Plans for Remote Companies: mint your company token, distribute and manage on Salto X.",
    "salto-x-dashboard-nft.png")

  const Project1: Project := Project(
    "Sharentic iOS app",
    "Sharentic helps you to live lightly, without compromise. The app was built entirely with SwiftUI, and for backend was used Firebase. For payments - Stripe. Additionally, all the stock and orders were managed using an internal dashboard.",
    "sharentic.png")

  const Project2: Project := Project(
    "Vaal Dashboard",
    "Securitization made as easy as revenue-based financing. Securitization allows companies to attract financing based on asset quality rather than on the financial performance of the company. Saving a CFO or Head of Capital Markets one day a week, 52 days a year. It was built using ReactJS, Material UI and other fronend technologies. All the data came from the loan tape that was stored in the Google Sheets.",
    "vaal-dashboard.png")

  const Project3: Project := Project(
    "Vibur iOS app",
    "Unpleasant and pleasant events calendar. This app will help you to be aware of an unpleasant event at the time it is happening. You will find some simple questions about your feelings and emotions, use them to focus your awareness on the details of the experience as it is happening.",
    "vibur.png",
    Some("https://apps.apple.com/us/app/vibur/id1592169625"))

  const Project4: Project := Project(
    "Qminder Apple TV app",
    "Qminder TV is native Apple TV app for the waiting list. It uses open sourced Qminder Swift API and latest Swift features such as codable and keypaths. App keeps active network connection using websockets and upates the UI using reactive approach and RxSwift.",
    "qminder-apple-tv.png")

  const Project5: Project := Project(
    "Qminder iPad app",
    "Qminder Sign-In provides self-service sign-in for customers. It uses native and web. Native side interacts with the server using in-house built JavaScript bridge. Background animations are fully native and use GPU.",
    "qminder-sign-in.png")

  const Project6: Project := Project(
    "Dodies.lv iOS app",
    "The idea behind Dodies.lv is to help plan one's outdoor activities in Latvia. In the map one can find Latvian nature trails, birdwatching towers, parks, campsites and picnic sites. Hiking trails in Latvia are usually shorter and marked, long distance trekking and hiking is not done on specific routes. Dodies.lv lists only marked hiking trails and paths, specifically targeted towards casual hikers.",
    "dodies.png",
    Some("https://itunes.apple.com/lv/app/dodies-lv/id1080800199?mt=8"))

  const Project7: Project := Project(
    "Augi & Draugi iOS app",
    "Augi & Draugi app gives the answer to the question: “Where should I eat today”? The map in the application serves as a guide for anyone interested in eating delicious plant-based dishes. Each location on the map serves multiple plant-based dishes, making sure everyone has a choice!",
    "augidraugi.png",
    Some("https://apps.apple.com/lv/app/augi-draugi/id1475145259"))

  const Project8: Project := Project(
    "Weather Latvia iOS app",
    "Weather Latvia shows current weather observations in Latvia. Data comes from Latvian Environment, Geology and Meteorology Centre and Latvian State Roads.",
    "weatherlatvia.png",
    Some("https://itunes.apple.com/lv/app/weather-latvia/id1350252673?mt=8"))

  const Project9: Project := Project(
    "Hashberg - easy hashtag manager",
    "Manage your hashtags in one place. Copy and use hashtags wherever you want. Group your hashtags by topic. Sync between all your devices using iCloud.",
    "hashberg.png",
    Some("https://apps.apple.com/us/app/hashberg-easy-hashtag-manager/id1549468659"))

  /** The projects, in the order the page shows them. */
  const AllProjects: seq<Project> := [Project0, Project1, Project2, Project3, Project4, Project5, Project6, Project7, Project8, Project9]

  const ImagesPath: string := "/images/"
  const AppStoreBadge: string := "images/download-appstore.svg"
  const BlankTarget: string := "_blank"

  /** The parts of one project entry, in document order. */
  datatype ProjectPart =
    | ProjectTitle(text: string)
    | ProjectDescription(text: string)
    | ProjectImage(src: string)
    | AppStoreLink(href: string, target: string, badge: string)

  /** The App Store badge: opens the store link in a new browsing context. */
  function ProjectLink(link: string): (r: ProjectPart)
    ensures r.AppStoreLink? && r.href == link && r.target == BlankTarget
  {
    AppStoreLink(link, BlankTarget, AppStoreBadge)
  }

  /** One project entry. */
  function ProjectItem(project: Project): seq<ProjectPart> {
    [ProjectTitle(project.title), ProjectDescription(project.description), ProjectImage(ImagesPath + project.image)]
    + (if project.link.Some? then [ProjectLink(project.link.value)] else [])
  }

  function ProjectItems(projects: seq<Project>): (r: seq<seq<ProjectPart>>)
    ensures |r| == |projects|
    ensures forall i :: 0 <= i < |projects| ==> r[i] == ProjectItem(projects[i])
  {
    seq(|projects|, i requires 0 <= i < |projects| => ProjectItem(projects[i]))
  }

  /** The projects section: one entry per project, in list order. */
  function ProjectsSection(): (r: seq<seq<ProjectPart>>)
    ensures |r| == |AllProjects|
    ensures forall i :: 0 <= i < |AllProjects| ==> r[i] == ProjectItem(AllProjects[i])
  {
    ProjectItems(AllProjects)
  }

  // ---------------------------------------------------------------------
  // Reading a project back from its entry

  /** The project an entry shows, if the entry has the shape of one. */
  function ProjectFromItem(parts: seq<ProjectPart>): (r: Option<Project>)
    ensures r.Some? ==> 3 <= |parts| <= 4 && parts[0] == ProjectTitle(r.value.title)
  {
    if !(3 <= |parts| <= 4) then None
    else if !(parts[0].ProjectTitle? && parts[1].ProjectDescription? && parts[2].ProjectImage?) then None
    else if !(|ImagesPath| <= |parts[2].src| && parts[2].src[..|ImagesPath|] == ImagesPath) then None
    else
      var image := parts[2].src[|ImagesPath|..];
      if |parts| == 3 then Some(Project(parts[0].text, parts[1].text, image))
      else if parts[3].AppStoreLink? then Some(Project(parts[0].text, parts[1].text, image, Some(parts[3].href)))
      else None
  }

  /** An entry shows all of its project: reading it back gives the project. */
  lemma ProjectItemRoundTrip(project: Project)
    ensures ProjectFromItem(ProjectItem(project)) == Some(project)
  {
    var src := (ImagesPath + project.image);
    assert src[..|ImagesPath|] == ImagesPath;
    assert src[|ImagesPath|..] == project.image;
  }

  /** Distinct projects have distinct entries. */
  lemma ProjectItemInjective(p: Project, q: Project)
    requires ProjectItem(p) == ProjectItem(q)
    ensures p == q
  {
    ProjectItemRoundTrip(p);
    ProjectItemRoundTrip(q);
  }

  /**
   * An entry holds the title, the description and the picture under the
   * images path, in that order, then the App Store badge exactly when the
   * project has a store link, pointing at that link.
   */
  lemma ProjectItemShape(project: Project)
    ensures var r := ProjectItem(project);
      && |r| == (if project.link.Some? then 4 else 3)
      && r[0] == ProjectTitle(project.title)
      && r[1] == ProjectDescription(project.description)
      && r[2] == ProjectImage("/images/" + project.image)
      && ((exists i :: 0 <= i < |r| && r[i].AppStoreLink?) <==> project.link.Some?)
      && (project.link.Some? ==> r[3] == AppStoreLink(project.link.value, "_blank", AppStoreBadge))
  {
    if project.link.Some? {
      assert ProjectItem(project)[3].AppStoreLink?;
    }
  }

  /** The section shows every project of the list, in order, and nothing else. */
  lemma ProjectsSectionRoundTrip()
    ensures forall i :: 0 <= i < |ProjectsSection()| ==> ProjectFromItem(ProjectsSection()[i]) == Some(AllProjects[i])
  {
    forall i | 0 <= i < |ProjectsSection()|
      ensures ProjectFromItem(ProjectsSection()[i]) == Some(AllProjects[i])
    {
      ProjectItemRoundTrip(AllProjects[i]);
    }
  }

  /** Every listed project has a title, a description and a picture. */
  lemma ProjectsComplete()
    ensures |AllProjects| == 10
    ensures forall i | 0 <= i < |AllProjects| :: AllProjects[i].title != "" && AllProjects[i].description != "" && AllProjects[i].image != ""
  {
  }

  /** Exactly the fourth and the seventh to tenth projects of the list carry a store link. */
  lemma StoreLinks()
    ensures forall i :: 0 <= i < |AllProjects| ==> (AllProjects[i].link.Some? <==> i == 3 || 6 <= i)
  {
  }
}
