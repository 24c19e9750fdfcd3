/**
 * The talks page: one entry per talk, each with its title, a date line and,
 * for every medium the talk has (video, slides, audio), a heading followed
 * by the embedded medium, always in that order.
 */
module Talks {
  import opened Wrappers
  import opened Markup
  import opened Publishing

  /** A talk as listed in the talks file. */
  datatype Talk = Talk(
    date: Date,
    title: string,
    event: string,
    video: Option<string>,
    slides: Option<string>,
    audio: Option<string>,
    image: Option<string>)

  /**
   * The talks the page lists: the decoded file, or none at all when the file
   * cannot be read or decoded. Reading and decoding are not modelled; their
   * outcome is the argument.
   */
  function GetTalks(decoded: Option<seq<Talk>>): (r: seq<Talk>)
    ensures decoded.None? ==> r == []
    ensures decoded.Some? ==> r == decoded.value
  {
    decoded.GetOr([])
  }

  const VideoPermissions: string :=
    "accelerometer; autoplay; clipboard-write; encrypted-media; gyroscope; picture-in-picture"
  const SlidesRatio: string := "1.77777777777778"
  const SlidesLoader: string := "//speakerdeck.com/assets/embed.js"

  /** The embedded video player. */
  function VideoIframe(src: string): (r: Element)
    ensures r.name == "iframe"
    ensures Attr("src", src) in r.attrs
    ensures Attr("src", src) in Rendered(r.attrs) <==> src != ""
    ensures Attr("allowfullscreen", "1") in Rendered(r.attrs)
  {
    Element("iframe", [
      Attr("class", "talk-vide-iframe"),
      Attr("src", src),
      Attr("frameborder", "0"),
      Attr("allow", VideoPermissions),
      Attr("allowfullscreen", "1")])
  }

  /** The video player's source is the talk's video address. */
  lemma VideoSource(src: string)
    ensures AttrValue(VideoIframe(src).attrs, "src") == Some(src)
  {
    var a := VideoIframe(src).attrs;
    assert a == [a[0]] + ([a[1]] + a[2..]);
    AttrValueCons(a[1], a[2..], "src");
    AttrValueCons(a[0], [a[1]] + a[2..], "src");
  }

  /** The slide deck embed: a script that the deck host's loader replaces by the deck `dataId`. */
  function SlidesScript(dataId: string): (r: Element)
    ensures r.name == "script"
    ensures Attr("data-id", dataId) in r.attrs
    ensures Attr("data-id", dataId) in Rendered(r.attrs) <==> dataId != ""
    ensures Attr("async", "", false) in Rendered(r.attrs)
    ensures Attr("src", SlidesLoader) in Rendered(r.attrs)
  {
    Element("script", [
      Attr("async", "", false),
      Attr("class", "speakerdeck-embed"),
      Attr("data-id", dataId),
      Attr("data-ratio", SlidesRatio),
      Attr("src", SlidesLoader)])
  }

  /** The deck script's `data-id` is the talk's deck identifier. */
  lemma SlidesDeck(dataId: string)
    ensures AttrValue(SlidesScript(dataId).attrs, "data-id") == Some(dataId)
  {
    var a := SlidesScript(dataId).attrs;
    assert a == [a[0]] + ([a[1]] + ([a[2]] + a[3..]));
    AttrValueCons(a[2], a[3..], "data-id");
    AttrValueCons(a[1], [a[2]] + a[3..], "data-id");
    AttrValueCons(a[0], [a[1]] + ([a[2]] + a[3..]), "data-id");
  }

  datatype Medium = Video | Slides | Audio

  /** The text of a medium's heading. */
  function HeadingText(m: Medium): string {
    match m
    case Video => "Video"
    case Slides => "Slides"
    case Audio => "Audio"
  }

  /**
   * An embedded medium, by the value it is made from; an audio player is
   * shown with its controls.
   */
  datatype Embed =
    | VideoEmbed(src: string)
    | SlidesEmbed(dataId: string)
    | AudioPlayer(url: string, showControls: bool)

  function MediumOf(e: Embed): Medium {
    match e
    case VideoEmbed(_) => Video
    case SlidesEmbed(_) => Slides
    case AudioPlayer(_, _) => Audio
  }

  /**
   * The element an embed is written as: the video player and the deck script
   * are built here; the audio player's markup is the markup library's own.
   */
  function EmbedMarkup(e: Embed): (r: Option<Element>)
    ensures r.Some? <==> !e.AudioPlayer?
    ensures e.VideoEmbed? ==> r.value.name == "iframe" && Attr("src", e.src) in r.value.attrs
    ensures e.SlidesEmbed? ==> r.value.name == "script" && Attr("data-id", e.dataId) in r.value.attrs
  {
    match e
    case VideoEmbed(src) => Some(VideoIframe(src))
    case SlidesEmbed(dataId) => Some(SlidesScript(dataId))
    case AudioPlayer(_, _) => None
  }

  /** The parts of one talk entry, in document order. */
  datatype TalkPart =
    | TalkTitle(text: string)
    | TalkDate(text: string)
    | MediaHeading(medium: Medium, text: string)
    | MediaBlock(embed: Embed)

  /** The line under a talk's title. */
  function DateLine(talk: Talk): string {
    talk.date.short + " | " + talk.event
  }

  /** The embed a talk has for a medium, if it has that medium. */
  function EmbedFor(talk: Talk, m: Medium): (r: Option<Embed>)
    ensures r.Some? ==> MediumOf(r.value) == m
    ensures m == Video ==> (r.Some? <==> talk.video.Some?)
    ensures m == Slides ==> (r.Some? <==> talk.slides.Some?)
    ensures m == Audio ==> (r.Some? <==> talk.audio.Some?)
    ensures m == Video && talk.video.Some? ==> r == Some(VideoEmbed(talk.video.value))
    ensures m == Slides && talk.slides.Some? ==> r == Some(SlidesEmbed(talk.slides.value))
    ensures m == Audio && talk.audio.Some? ==> r == Some(AudioPlayer(talk.audio.value, true))
  {
    match m
    case Video => if talk.video.Some? then Some(VideoEmbed(talk.video.value)) else None
    case Slides => if talk.slides.Some? then Some(SlidesEmbed(talk.slides.value)) else None
    case Audio => if talk.audio.Some? then Some(AudioPlayer(talk.audio.value, true)) else None
  }

  /** A medium's heading and embed, when the talk has that medium. */
  function MediumPart(talk: Talk, m: Medium): seq<TalkPart> {
    match EmbedFor(talk, m)
    case Some(e) => [MediaHeading(m, HeadingText(m)), MediaBlock(e)]
    case None => []
  }

  /** One talk entry. */
  function TalkItem(talk: Talk): seq<TalkPart> {
    [TalkTitle(talk.title), TalkDate(DateLine(talk))]
    + MediumPart(talk, Video) + MediumPart(talk, Slides) + MediumPart(talk, Audio)
  }

  /** The talks section: a "Talks" heading, then one entry per talk. */
  datatype TalksSection = TalksSection(heading: string, items: seq<seq<TalkPart>>)

  function TalkItems(talks: seq<Talk>): (r: seq<seq<TalkPart>>)
    ensures |r| == |talks|
    ensures forall i :: 0 <= i < |talks| ==> r[i] == TalkItem(talks[i])
  {
    if |talks| == 0 then [] else [TalkItem(talks[0])] + TalkItems(talks[1..])
  }

  /** The section lists the given talks one for one, in the given order. */
  function TalksSectionFor(talks: seq<Talk>): (r: TalksSection)
    ensures r.heading == "Talks"
    ensures |r.items| == |talks|
    ensures forall i :: 0 <= i < |talks| ==>
      |r.items[i]| >= 2 && r.items[i][0] == TalkTitle(talks[i].title)
    ensures forall i :: 0 <= i < |talks| ==> r.items[i] == TalkItem(talks[i])
  {
    TalksSection("Talks", TalkItems(talks))
  }

  // ---------------------------------------------------------------------
  // Properties of a talk entry

  /** Where a part may stand in an entry: every kind of part has its own slot. */
  function Slot(p: TalkPart): nat {
    match p
    case TalkTitle(_) => 0
    case TalkDate(_) => 1
    case MediaHeading(m, _) => 2 + 2 * MediumIndex(m)
    case MediaBlock(e) => 3 + 2 * MediumIndex(MediumOf(e))
  }

  function MediumIndex(m: Medium): nat {
    match m
    case Video => 0
    case Slides => 1
    case Audio => 2
  }

  /** Parts stand in strictly increasing slots: a fixed order, each kind at most once. */
  predicate InSlotOrder(s: seq<TalkPart>) {
    forall i, j :: 0 <= i < j < |s| ==> Slot(s[i]) < Slot(s[j])
  }

  /** Every medium heading is directly followed by an embed of that medium. */
  predicate HeadingsIntroduceEmbeds(s: seq<TalkPart>) {
    forall i :: 0 <= i < |s| && s[i].MediaHeading? ==>
      i + 1 < |s| && s[i + 1].MediaBlock? && MediumOf(s[i + 1].embed) == s[i].medium
  }

  function Present<T>(o: Option<T>): nat {
    if o.Some? then 1 else 0
  }

  lemma InSlotOrderConcat(a: seq<TalkPart>, b: seq<TalkPart>, k: nat)
    requires InSlotOrder(a) && InSlotOrder(b)
    requires forall p | p in a :: Slot(p) < k
    requires forall p | p in b :: k <= Slot(p)
    ensures InSlotOrder(a + b)
  {
    forall i, j | 0 <= i < j < |a + b| ensures Slot((a + b)[i]) < Slot((a + b)[j]) {
      if j < |a| {
        assert (a + b)[i] == a[i] && (a + b)[j] == a[j];
      } else if i < |a| {
        assert (a + b)[i] == a[i] && (a + b)[j] == b[j - |a|];
        assert a[i] in a && b[j - |a|] in b;
      } else {
        assert (a + b)[i] == b[i - |a|] && (a + b)[j] == b[j - |a|];
      }
    }
  }

  lemma HeadingsConcat(a: seq<TalkPart>, b: seq<TalkPart>)
    requires HeadingsIntroduceEmbeds(a) && HeadingsIntroduceEmbeds(b)
    ensures HeadingsIntroduceEmbeds(a + b)
  {
    forall i | 0 <= i < |a + b| && (a + b)[i].MediaHeading?
      ensures i + 1 < |a + b| && (a + b)[i + 1].MediaBlock? && MediumOf((a + b)[i + 1].embed) == (a + b)[i].medium
    {
      if i < |a| {
        assert (a + b)[i] == a[i] && (a + b)[i + 1] == a[i + 1];
      } else {
        assert (a + b)[i] == b[i - |a|] && (a + b)[i + 1] == b[i + 1 - |a|];
      }
    }
  }

  lemma MediumPartFits(talk: Talk, m: Medium)
    ensures |MediumPart(talk, m)| == 2 * Present(EmbedFor(talk, m))
    ensures InSlotOrder(MediumPart(talk, m)) && HeadingsIntroduceEmbeds(MediumPart(talk, m))
    ensures forall p | p in MediumPart(talk, m) :: 2 + 2 * MediumIndex(m) <= Slot(p) <= 3 + 2 * MediumIndex(m)
  {
  }

  /**
   * A talk entry opens with the title and the date line, then holds the
   * heading and embed of each medium the talk has, and nothing else.
   */
  lemma TalkItemContents(talk: Talk)
    ensures var r := TalkItem(talk);
      && |r| == 2 + 2 * (Present(talk.video) + Present(talk.slides) + Present(talk.audio))
      && r[0] == TalkTitle(talk.title)
      && r[1] == TalkDate(talk.date.short + " | " + talk.event)
  {
    MediumPartFits(talk, Video);
    MediumPartFits(talk, Slides);
    MediumPartFits(talk, Audio);
  }

  /**
   * The parts of a talk entry stand in a fixed order (title, date, video,
   * slides, audio) and each medium's heading directly precedes its embed.
   */
  lemma TalkItemOrder(talk: Talk)
    ensures InSlotOrder(TalkItem(talk)) && HeadingsIntroduceEmbeds(TalkItem(talk))
  {
    var opening := [TalkTitle(talk.title), TalkDate(DateLine(talk))];
    var v, s, a := MediumPart(talk, Video), MediumPart(talk, Slides), MediumPart(talk, Audio);
    MediumPartFits(talk, Video);
    MediumPartFits(talk, Slides);
    MediumPartFits(talk, Audio);
    InSlotOrderConcat(opening, v, 2);
    InSlotOrderConcat(opening + v, s, 4);
    InSlotOrderConcat(opening + v + s, a, 6);
    HeadingsConcat(opening, v);
    HeadingsConcat(opening + v, s);
    HeadingsConcat(opening + v + s, a);
  }

  lemma MediumPartMembers(talk: Talk, m: Medium, n: Medium)
    ensures MediaHeading(m, HeadingText(m)) in MediumPart(talk, n) <==> m == n && EmbedFor(talk, m).Some?
    ensures forall p | p in MediumPart(talk, n) && p.MediaHeading? :: p.text == HeadingText(p.medium)
    ensures forall e :: MediaBlock(e) in MediumPart(talk, n) <==> EmbedFor(talk, n) == Some(e)
  {
  }

  /**
   * A medium's heading and embed are in a talk's entry exactly when the talk
   * has that medium, and the embed is made from the talk's own field.
   */
  lemma MediumPresence(talk: Talk, m: Medium)
    ensures MediaHeading(m, HeadingText(m)) in TalkItem(talk) <==> EmbedFor(talk, m).Some?
    ensures forall e :: MediaBlock(e) in TalkItem(talk) && MediumOf(e) == m <==> EmbedFor(talk, m) == Some(e)
  {
    MediumPartMembers(talk, m, Video);
    MediumPartMembers(talk, m, Slides);
    MediumPartMembers(talk, m, Audio);
  }

  /** Every medium heading of a talk entry reads "Video", "Slides" or "Audio", after its medium. */
  lemma HeadingsLabelled(talk: Talk)
    ensures forall p | p in TalkItem(talk) && p.MediaHeading? :: p.text == HeadingText(p.medium)
  {
    MediumPartMembers(talk, Video, Video);
    MediumPartMembers(talk, Video, Slides);
    MediumPartMembers(talk, Video, Audio);
  }

  /**
   * A talk entry embeds the talk's own media: the video player whose `src`
   * is the talk's video address, the deck script whose `data-id` is the
   * talk's slides id, and the audio player for the talk's audio address with
   * its controls shown.
   */
  lemma TalkMediaSources(talk: Talk)
    ensures talk.video.Some? ==>
      && MediaBlock(VideoEmbed(talk.video.value)) in TalkItem(talk)
      && AttrValue(EmbedMarkup(VideoEmbed(talk.video.value)).value.attrs, "src") == talk.video
    ensures talk.slides.Some? ==>
      && MediaBlock(SlidesEmbed(talk.slides.value)) in TalkItem(talk)
      && AttrValue(EmbedMarkup(SlidesEmbed(talk.slides.value)).value.attrs, "data-id") == talk.slides
    ensures talk.audio.Some? ==> MediaBlock(AudioPlayer(talk.audio.value, true)) in TalkItem(talk)
  {
    MediumPresence(talk, Video);
    MediumPresence(talk, Slides);
    MediumPresence(talk, Audio);
    if talk.video.Some? {
      VideoSource(talk.video.value);
    }
    if talk.slides.Some? {
      SlidesDeck(talk.slides.value);
    }
  }

  /** When the talks file cannot be read, the section holds the heading and no talk. */
  lemma UnreadableFileListsNothing()
    ensures TalksSectionFor(GetTalks(None)).items == []
  {
  }
}
