/** What an annotation shows: the icons chosen from a profile's counts (`makeEmojis`, and
    the icons of the older `renderContent`), the three count lines (`makeInfo`), the
    condensed description, and the collapse toggle of list entries. The HTML strings are
    not built: a rendering is the value that determines them. */
module Render {
  import opened Common
  import Options
  import Store
  import I18n
  import Description

  /** The icon slots an annotation can fill. */
  datatype Icon = HasDescription | Engaged | Posted | Popular | Followed

  /** The four slots of `makeEmojis`: each holds an icon or nothing (`''`). */
  datatype Emojis = Emojis(
    profile: Option<Icon>, posts: Option<Icon>, followers: Option<Icon>, following: Option<Icon>)

  /** The posts slot: engaged at or above one threshold, posted strictly above the other. */
  function PostsIcon(posts: int, posted: int, engaged: int): Option<Icon>
  {
    if posts >= engaged then Some(Engaged)
    else if posts > posted then Some(Posted)
    else None
  }

  /** `makeEmojis(data)`. The description test is on the stored, untrimmed description:
      any non-empty text, even blank, shows the icon. */
  function MakeEmojis(data: Store.ProfileData, cfg: Options.Config): Emojis
  {
    Emojis(
      if data.description.Some? && data.description.value != "" then Some(HasDescription) else None,
      PostsIcon(data.postsCount, cfg.posted, cfg.engaged),
      if data.followersCount > data.followingCount then Some(Popular) else None,
      if data.following then Some(Followed) else None)
  }

  /** The rank of a posts slot: nothing, posted, engaged. */
  function PostsRank(icon: Option<Icon>): nat
  {
    match icon
    case None => 0
    case Some(Posted) => 1
    case Some(_) => 2
  }

  /** The three cases of the posts slot, each with the condition that selects it. */
  lemma PostsIconCases(posts: int, posted: int, engaged: int)
    ensures PostsIcon(posts, posted, engaged) == Some(Engaged) <==> posts >= engaged
    ensures PostsIcon(posts, posted, engaged) == Some(Posted) <==> posted < posts < engaged
    ensures PostsIcon(posts, posted, engaged) == None <==> posts <= posted && posts < engaged
  {
  }

  /** More posts never lower the posts slot, whatever the two thresholds are. */
  lemma PostsIconMonotone(p: int, q: int, posted: int, engaged: int)
    requires p <= q
    ensures PostsRank(PostsIcon(p, posted, engaged)) <= PostsRank(PostsIcon(q, posted, engaged))
  {
  }

  /** Each slot of `makeEmojis` is filled exactly when its condition holds. */
  lemma EmojisCases(data: Store.ProfileData, cfg: Options.Config)
    ensures MakeEmojis(data, cfg).profile.Some? <==>
      data.description.Some? && |data.description.value| > 0
    ensures MakeEmojis(data, cfg).followers == Some(Popular) <==>
      data.followersCount > data.followingCount
    ensures MakeEmojis(data, cfg).following == Some(Followed) <==> data.following
    ensures MakeEmojis(data, cfg).posts.Some? <==>
      data.postsCount >= cfg.engaged || data.postsCount > cfg.posted
  {
  }

  /** A count line of `makeInfo`: the icon, the label text, the count and whether the ` | `
      separator follows. */
  datatype Stat = Stat(icon: Option<Icon>, text: string, count: int, sep: bool)

  /** What `renderContent` puts in the content element. */
  datatype View =
    /** `Could not load profile!` with the `bfi-error` class */
    | Failed
    /** the description segments (no description block when there are none), whether they
        are dimmed (`bfi-dim` rather than `bfi-text`), whether the block is compact, and
        the count lines */
    | Card(segments: seq<Description.Line>, dim: bool, compact: bool, stats: seq<Stat>)

  /** The labels of the count lines: the page language's, falling back to English. */
  function CountLabels(htmlLang: string): I18n.Labels
  {
    I18n.GetLang(htmlLang, "en").GetOr(I18n.Table["en"]).labels
  }

  /** `renderContent(content, profile)` of the current script: `isOld` and the options are
      those at the time of the call. */
  function RenderContent(data: Option<Store.ProfileData>, isOld: bool, htmlLang: string,
                         cfg: Options.Config): View
  {
    match data
    case None => Failed
    case Some(d) =>
      var emojis := MakeEmojis(d, cfg);
      var labels := CountLabels(htmlLang);
      Card(Description.Condense(d.description, cfg.emojis, !cfg.emojis), isOld, cfg.compact,
           [Stat(emojis.posts, labels.posts, d.postsCount, true),
            Stat(emojis.followers, labels.followers, d.followersCount, true),
            Stat(emojis.following, labels.following, d.followingCount, false)])
  }

  /** The rendering of loaded data shows the condensed description (dimmed when the record
      is old) and the three counts in order, each with the icon of its slot and the label of
      the page language. */
  lemma RenderCard(d: Store.ProfileData, isOld: bool, htmlLang: string, cfg: Options.Config)
    ensures var v := RenderContent(Some(d), isOld, htmlLang, cfg);
      var e, labels := MakeEmojis(d, cfg), CountLabels(htmlLang);
      && v.Card? && |v.stats| == 3 && v.dim == isOld && v.compact == cfg.compact
      && v.segments == Description.Condense(d.description, cfg.emojis, !cfg.emojis)
      && v.stats[0] == Stat(e.posts, labels.posts, d.postsCount, true)
      && v.stats[1] == Stat(e.followers, labels.followers, d.followersCount, true)
      && v.stats[2] == Stat(e.following, labels.following, d.followingCount, false)
      && v.stats[0].icon == PostsIcon(d.postsCount, cfg.posted, cfg.engaged)
      && (d.description.None? ==> v.segments == [])
  {
  }

  /** Every description segment is non-empty, trimmed and free of separators; with emoji
      turned off, it holds no emoji and no joiner. */
  lemma RenderStripsEmoji(d: Store.ProfileData, isOld: bool, htmlLang: string,
                          cfg: Options.Config, i: nat)
    requires var v := RenderContent(Some(d), isOld, htmlLang, cfg); i < |v.segments|
    ensures var line := RenderContent(Some(d), isOld, htmlLang, cfg).segments[i];
      && line != [] && !Description.IsBlank(line[0]) && !Description.IsBlank(line[|line| - 1])
      && (forall t :: t in line ==> !Description.IsSeparatorToken(t))
      && (!cfg.emojis ==> forall t :: t in line ==> !Description.Strippable(t))
  {
    var segs := Description.Condense(d.description, cfg.emojis, !cfg.emojis);
    RenderSegments(d, isOld, htmlLang, cfg);
    Description.CondenseSegments(d.description, cfg.emojis, !cfg.emojis, i);
    assert RenderContent(Some(d), isOld, htmlLang, cfg).segments[i] == segs[i];
  }

  lemma RenderSegments(d: Store.ProfileData, isOld: bool, htmlLang: string, cfg: Options.Config)
    ensures RenderContent(Some(d), isOld, htmlLang, cfg).segments
      == Description.Condense(d.description, cfg.emojis, !cfg.emojis)
  {
  }

  /** Turning emoji off removes nothing from a description that has none: its segments are
      those shown with emoji on, less the bolt before each URL. */
  lemma RenderKeepsPlainText(d: Store.ProfileData, isOld: bool, htmlLang: string, cfg: Options.Config)
    requires !cfg.emojis && d.description.Some? && Description.EmojiFree(d.description.value)
    ensures RenderContent(Some(d), isOld, htmlLang, cfg).segments
      == Description.Condense(d.description, false, false)
  {
    Description.CondenseStripKeepsText(d.description.value);
  }

  /** The counts are labelled in English whatever the page language, when it is unsupported. */
  lemma CountLabelsFallback(htmlLang: string)
    requires I18n.LangCode(htmlLang) !in I18n.Table
    ensures CountLabels(htmlLang) == I18n.Labels("Posts", "Followers", "Following")
  {
    I18n.GetLangUnsupported(htmlLang);
  }

  /** The collapse toggle of a list entry (`updateToggle`): the button title, the
      `data-bfi-visible` flag, the icon summary shown while collapsed, and whether the
      button shows the minus (collapse) or the plus (expand) glyph. */
  datatype Toggle = Toggle(title: string, flag: string, summary: seq<Option<Icon>>, minus: bool)

  function ToggleOf(visible: bool, data: Store.ProfileData, cfg: Options.Config): Toggle
  {
    var e := MakeEmojis(data, cfg);
    Toggle(if visible then "Hide" else "Show", if visible then "1" else "0",
           if visible then [] else [e.profile, e.posts, e.followers, e.following], visible)
  }

  /** Collapsed, the entry shows all four slots; expanded, none, and the title names the
      action the button performs. */
  lemma ToggleStates(data: Store.ProfileData, cfg: Options.Config)
    ensures ToggleOf(true, data, cfg).summary == [] && ToggleOf(true, data, cfg).title == "Hide"
    ensures |ToggleOf(false, data, cfg).summary| == 4 && ToggleOf(false, data, cfg).title == "Show"
    ensures ToggleOf(false, data, cfg).summary[1] == MakeEmojis(data, cfg).posts
    ensures ToggleOf(true, data, cfg) != ToggleOf(false, data, cfg)
  {
  }

  // ---------------------------------------------------------------------------------------
  // the older variant (root content.js)
  // ---------------------------------------------------------------------------------------

  /** The icons of the older `renderContent`: fixed thresholds (engaged at 25 posts, posted
      above 1) and no description icon. */
  function LegacyEmojis(data: Store.ProfileData): Emojis
  {
    Emojis(None, PostsIcon(data.postsCount, 1, 25),
           if data.followersCount > data.followingCount then Some(Popular) else None,
           if data.following then Some(Followed) else None)
  }

  /** The older icons are the current ones under thresholds 1 and 25, less the description
      icon; with the default thresholds (5 and 25) only counts of 2 to 5 posts differ. */
  lemma LegacyEmojisAsCurrent(data: Store.ProfileData, cfg: Options.Config)
    requires cfg.posted == 1 && cfg.engaged == 25
    ensures LegacyEmojis(data) == MakeEmojis(data, cfg).(profile := None)
  {
  }

  lemma LegacyPostedDiffers(data: Store.ProfileData, cfg: Options.Config)
    requires cfg.posted == 5 && cfg.engaged == 25
    ensures LegacyEmojis(data).posts != MakeEmojis(data, cfg).posts <==>
      2 <= data.postsCount <= 5
  {
  }

  /** The older rendering: URLs always get the bolt, emoji are never stripped, the block is
      never compact and the labels are always English. The second component is the
      `bfi-following` class of the element. */
  function LegacyRenderContent(data: Option<Store.ProfileData>, isOld: bool): (View, bool)
  {
    match data
    case None => (Failed, false)
    case Some(d) =>
      var emojis := LegacyEmojis(d);
      (Card(Description.Condense(d.description, true, false), isOld, false,
            [Stat(emojis.posts, "Posts", d.postsCount, true),
             Stat(emojis.followers, "Followers", d.followersCount, true),
             Stat(emojis.following, "Following", d.followingCount, false)]),
       d.following)
  }

  /** The older description is the current one with emoji enabled. */
  lemma LegacyDescriptionAsCurrent(d: Store.ProfileData, isOld: bool, htmlLang: string,
                                   cfg: Options.Config)
    requires cfg.emojis
    ensures LegacyRenderContent(Some(d), isOld).0.segments
      == RenderContent(Some(d), isOld, htmlLang, cfg).segments
  {
  }
}
