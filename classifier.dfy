/** The anchor classifier of the current content script (`getContentModel`): given the
    facts about a profile link that the page's DOM would answer, decide whether it gets an
    annotation and of which kind, trying in order the starter-pack card, the notification
    summary (pass 1, which only marks its group), the notification list (pass 2) and the feed. */
module Classifier {
  import opened Common
  import Options
  import I18n

  datatype Kind = Starter | List | Feed

  /** The `{handle, type}` part of a content model. */
  datatype ContentModel = ContentModel(handle: string, kind: Kind)

  /** What pass 1 leaves on a grouped notification: whether its container still carries its
      `feedItem-by…` test id, whether the list after the summary has `bfi-list`, and whether
      the container has `bfi-container` and `no-highlight`. */
  datatype Marks = Marks(testId: bool, list: bool, container: bool, noHighlight: bool)

  /** The marks of a group the script has not touched. */
  const Untouched: Marks := Marks(true, false, false, false)

  /** A grouped notification ("N people followed you"): its container, its avatar summary,
      the expandable list after the summary and, after that, the element whose accessible
      label describes the notification. */
  class Group {
    var marks: Marks
    /** the accessible label describing the notification */
    const description: string
    /** whether the hide-list control is present (the page shows it once the list is open) */
    var hideList: bool

    constructor (description: string, hideList: bool)
      ensures marks == Untouched && this.description == description && this.hideList == hideList
    {
      marks := Untouched;
      this.description := description;
      this.hideList := hideList;
    }
  }

  /** Where a link sits: outside any group, among a group's summary avatars
      (`[role="presentation"]`), or in a group's expanded list. */
  datatype Place = Loose | InSummary(group: Group) | InList(group: Group)
  {
    function Groups(): set<Group>
    {
      if Loose? then {} else {group}
    }
  }

  /** The rest of what the classifier reads about a link: its handle (from `href`), the page
      path, whether it holds a button and an avatar, its own accessible label, and the
      accessible label of the closest `feedItem-by-<handle>` element (outer `None` when there
      is no such element, inner `None` when it has no label). */
  datatype Link = Link(
    handle: string, pathname: string, hasButton: bool, hasAvatar: bool,
    ariaLabel: Option<string>, feedItem: Option<Option<string>>)

  /** A place as the classifier sees it at one moment. */
  datatype Scene = Free | Summary(marks: Marks, description: string) | Listed(marks: Marks, hideList: bool)

  function SceneOf(place: Place): Scene
    reads place.Groups()
  {
    match place
    case Loose => Free
    case InSummary(g) => Summary(g.marks, g.description)
    case InList(g) => Listed(g.marks, g.hideList)
  }

  /** A starter-pack card: on a `/starter-pack/` page, a link holding a button and an avatar. */
  predicate IsStarter(link: Link)
  {
    StartsWith(link.pathname, "/starter-pack/") && link.hasButton && link.hasAvatar
  }

  /** A notification category switched off in the `process` options. */
  predicate Excluded(description: string, aria: I18n.Aria, cfg: Options.Config)
  {
    || (Contains(description, aria.listFollowed) && !cfg.listFollowed)
    || (Contains(description, aria.listReposted) && !cfg.listReposted)
    || (Contains(description, aria.listLiked) && !cfg.listLiked)
  }

  /** Pass 1 on a summary link: when the container is still found by its test id, the id is
      deleted and the list marked; unless the category is switched off, the container is
      marked too, and so is `no-highlight` when list highlighting is off. */
  function MarkSummary(marks: Marks, description: string, aria: I18n.Aria, cfg: Options.Config): (r: Marks)
    ensures !r.testId
    ensures marks.testId ==> r.list && (r.container <==> marks.container || !Excluded(description, aria, cfg))
    ensures !marks.testId ==> r == marks
  {
    if !marks.testId then marks
    else
      var m := marks.(testId := false, list := true);
      if Excluded(description, aria, cfg) then m
      else m.(container := true, noHighlight := marks.noHighlight || !cfg.highlightLists)
  }

  /** The feed test: inside the link's own `feedItem-by-<handle>` element, with feed items
      enabled, whose non-empty label mentions the "followed you" phrase. */
  predicate FeedFollowed(link: Link, aria: I18n.Aria, cfg: Options.Config)
  {
    && link.feedItem.Some? && cfg.feedFollowed
    && link.feedItem.value.Some? && link.feedItem.value.value != ""
    && Contains(link.feedItem.value.value, aria.feedFollowed)
  }

  /** The value `getContentModel` returns. The phrase table is the page language's, with no
      fallback. */
  function Classify(link: Link, scene: Scene, htmlLang: string, cfg: Options.Config): (m: Option<ContentModel>)
    ensures m.Some? ==> m.value.handle == link.handle
  {
    match I18n.GetLang(htmlLang, "")
    case None => None
    case Some(phrases) =>
      var aria := phrases.aria;
      if IsStarter(link) then Some(ContentModel(link.handle, Starter))
      else if scene.Summary? then None
      else if scene.Listed? && scene.marks.list then
        if scene.marks.container && scene.hideList then Some(ContentModel(link.handle, List)) else None
      else if link.ariaLabel.Some? && Contains(link.ariaLabel.value, aria.avatar) then None
      else if FeedFollowed(link, aria, cfg) then Some(ContentModel(link.handle, Feed))
      else None
  }

  /** The marks a summary's group carries after `getContentModel` ran on one of its links:
      pass 1 runs only when a phrase table exists and the link is no starter card. */
  function Pass1(link: Link, marks: Marks, description: string, htmlLang: string, cfg: Options.Config): Marks
  {
    match I18n.GetLang(htmlLang, "")
    case None => marks
    case Some(phrases) => if IsStarter(link) then marks else MarkSummary(marks, description, phrases.aria, cfg)
  }

  /** A link on the page: its facts, its place and its `data-bfi` marker. */
  class Anchor {
    const link: Link
    const place: Place
    var processed: bool

    constructor (link: Link, place: Place)
      ensures this.link == link && this.place == place && !processed
    {
      this.link := link;
      this.place := place;
      processed := false;
    }
  }

  /** `getContentModel(link)`: the classification, with pass 1's marks written to the
      summary's group. */
  method GetContentModel(anchor: Anchor, htmlLang: string, cfg: Options.Config)
    returns (m: Option<ContentModel>)
    modifies anchor.place.Groups()
    ensures m == Classify(anchor.link, old(SceneOf(anchor.place)), htmlLang, cfg)
    ensures anchor.place.InSummary? ==>
      anchor.place.group.marks == Pass1(anchor.link, old(anchor.place.group.marks),
                                        anchor.place.group.description, htmlLang, cfg)
      && anchor.place.group.hideList == old(anchor.place.group.hideList)
    ensures !anchor.place.InSummary? ==> forall g :: g in anchor.place.Groups() ==> unchanged(g)
  {
    m := Classify(anchor.link, SceneOf(anchor.place), htmlLang, cfg);
    if anchor.place.InSummary? {
      var g := anchor.place.group;
      g.marks := Pass1(anchor.link, g.marks, g.description, htmlLang, cfg);
    }
  }

  // ---------------------------------------------------------------------------------------
  // properties
  // ---------------------------------------------------------------------------------------

  /** Without a phrase table for the page language nothing is classified and no group is
      marked. */
  lemma NoTableNoModel(link: Link, scene: Scene, htmlLang: string, cfg: Options.Config,
                       marks: Marks, description: string)
    requires I18n.LangCode(htmlLang) !in I18n.Table
    ensures Classify(link, scene, htmlLang, cfg) == None
    ensures Pass1(link, marks, description, htmlLang, cfg) == marks
  {
    I18n.GetLangUnsupported(htmlLang);
  }

  /** A starter card wins over every other reading of the link. */
  lemma StarterFirst(link: Link, scene: Scene, htmlLang: string, cfg: Options.Config)
    requires I18n.GetLang(htmlLang, "").Some? && IsStarter(link)
    ensures Classify(link, scene, htmlLang, cfg) == Some(ContentModel(link.handle, Starter))
  {
  }

  /** A summary avatar is never annotated itself. */
  lemma SummaryNeverAnnotated(link: Link, marks: Marks, description: string, htmlLang: string,
                              cfg: Options.Config)
    requires !IsStarter(link)
    ensures Classify(link, Summary(marks, description), htmlLang, cfg) == None
  {
  }

  /** A list entry is annotated only in a list and a container that pass 1 marked, and
      only while the hide-list control is present. */
  lemma ListNeedsPass1(link: Link, scene: Scene, htmlLang: string, cfg: Options.Config)
    requires Classify(link, scene, htmlLang, cfg) == Some(ContentModel(link.handle, List))
    ensures scene.Listed? && scene.marks.list && scene.marks.container && scene.hideList
  {
  }

  /** Feed entries are annotated only with feed processing switched on. */
  lemma FeedNeedsOption(link: Link, scene: Scene, htmlLang: string, cfg: Options.Config)
    requires !cfg.feedFollowed
    ensures Classify(link, scene, htmlLang, cfg) != Some(ContentModel(link.handle, Feed))
  {
  }

  /** Pass 1 runs once per group: its test id is gone afterwards, so a second summary link of
      the same group changes nothing. */
  lemma Pass1Once(link: Link, other: Link, marks: Marks, description: string, htmlLang: string,
                  cfg: Options.Config)
    requires !IsStarter(link)
    ensures var once := Pass1(link, marks, description, htmlLang, cfg);
      Pass1(other, once, description, htmlLang, cfg) == once
  {
  }

  /** From an untouched group, pass 1 on a summary link followed by pass 2 on a list link:
      the list link is annotated exactly when its category is enabled and the hide-list
      control is present, and no-highlight is set exactly when highlighting is off. */
  lemma Pass1ThenPass2(summaryLink: Link, listLink: Link, description: string, hideList: bool,
                       htmlLang: string, cfg: Options.Config)
    requires I18n.GetLang(htmlLang, "").Some?
    requires !IsStarter(summaryLink) && !IsStarter(listLink)
    ensures var aria := I18n.GetLang(htmlLang, "").value.aria;
      var marks := Pass1(summaryLink, Untouched, description, htmlLang, cfg);
      && (Classify(listLink, Listed(marks, hideList), htmlLang, cfg)
            == Some(ContentModel(listLink.handle, List))
          <==> !Excluded(description, aria, cfg) && hideList)
      && (Classify(listLink, Listed(marks, hideList), htmlLang, cfg).None?
          <==> Excluded(description, aria, cfg) || !hideList)
      && (marks.noHighlight <==> !Excluded(description, aria, cfg) && !cfg.highlightLists)
  {
  }
}
