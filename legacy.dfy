/** The older content script (the repository's root `content.js`): the same page walk with
    fixed thresholds and no options, an exact-language phrase table, a profile without a
    visibility and created afresh for every link, and a classifier that can throw. */
module Legacy {
  import opened Common
  import Options
  import Store
  import Api
  import I18n
  import Render
  import Profiles
  import Classifier
  import Handlers

  // ---------------------------------------------------------------------------------------
  // classification (`getTargetModel`)
  // ---------------------------------------------------------------------------------------

  /** How `getTargetModel` ends: with a model, with `undefined`, or by throwing (a list
      link under no `bfi-container` makes `container.querySelector` fail on `null`). */
  datatype Classified = Found(model: Classifier.ContentModel) | NotFound | Threw

  /** Pass 1 on a summary link: with the container still found by its test id, the list and
      the container are marked together and the test id deleted. */
  function MarkSummary(marks: Classifier.Marks): (r: Classifier.Marks)
    ensures !r.testId && r.noHighlight == marks.noHighlight
    ensures marks.testId ==> r.list && r.container
    ensures !marks.testId ==> r == marks
  {
    if marks.testId then marks.(testId := false, list := true, container := true) else marks
  }

  /** `getTargetModel(link)`: the table is looked up by the exact declared language, and no
      option switches a category off. */
  function Classify(link: Classifier.Link, scene: Classifier.Scene, htmlLang: string): (c: Classified)
    ensures c.Found? ==> c.model.handle == link.handle
  {
    match I18n.LegacyLang(htmlLang)
    case None => NotFound
    case Some(phrases) =>
      var aria := phrases.aria;
      if Classifier.IsStarter(link) then Found(Classifier.ContentModel(link.handle, Classifier.Starter))
      else if scene.Summary? then NotFound
      else if scene.Listed? && scene.marks.list then
        if !scene.marks.container then Threw
        else if scene.hideList then Found(Classifier.ContentModel(link.handle, Classifier.List))
        else NotFound
      else if link.ariaLabel.Some? && Contains(link.ariaLabel.value, aria.avatar) then NotFound
      else if link.feedItem.Some? && link.feedItem.value.Some? && link.feedItem.value.value != ""
              && Contains(link.feedItem.value.value, aria.feedFollowed)
      then Found(Classifier.ContentModel(link.handle, Classifier.Feed))
      else NotFound
  }

  /** The marks a summary's group carries after `getTargetModel` ran on one of its links. */
  function Pass1(link: Classifier.Link, marks: Classifier.Marks, htmlLang: string): Classifier.Marks
  {
    if I18n.LegacyLang(htmlLang).Some? && !Classifier.IsStarter(link) then MarkSummary(marks) else marks
  }

  /** Marks in which a list is never marked without its container. */
  predicate Paired(marks: Classifier.Marks)
  {
    marks.list ==> marks.container
  }

  /** Pass 1 keeps list and container paired, so on marks it made the classifier never
      throws. */
  lemma PairedNeverThrows(link: Classifier.Link, other: Classifier.Link, marks: Classifier.Marks,
                          hideList: bool, htmlLang: string)
    requires Paired(marks)
    ensures Paired(Pass1(other, marks, htmlLang))
    ensures Classify(link, Classifier.Listed(Pass1(other, marks, htmlLang), hideList), htmlLang) != Threw
  {
  }

  /** The newer pass 1 leaves a switched-off category's list marked without its container;
      the newer classifier ignores such a list entry where this one would throw. */
  lemma ExcludedListThrowsHere(link: Classifier.Link, description: string, hideList: bool,
                               htmlLang: string, cfg: Options.Config)
    requires I18n.LegacyLang(htmlLang).Some? && !Classifier.IsStarter(link)
    requires Classifier.Excluded(description, I18n.LegacyLang(htmlLang).value.aria, cfg)
    ensures var marks := Classifier.MarkSummary(Classifier.Untouched, description,
                                                I18n.LegacyLang(htmlLang).value.aria, cfg);
      && Classify(link, Classifier.Listed(marks, hideList), htmlLang) == Threw
      && Classifier.Classify(link, Classifier.Listed(marks, hideList), htmlLang, cfg) == None
  {
    LegacyLangIsCurrent(htmlLang);
  }

  /** A language the older table knows is known to the newer lookup, with the same table. */
  lemma LegacyLangIsCurrent(htmlLang: string)
    requires I18n.LegacyLang(htmlLang).Some?
    ensures I18n.GetLang(htmlLang, "") == I18n.LegacyLang(htmlLang)
  {
    assert htmlLang == "en" || htmlLang == "fr" || htmlLang == "es";
    assert I18n.LangCode(htmlLang) == htmlLang;
  }

  /** With every category enabled and feed items on, on a page whose exact language is
      supported, the older classifier finds what the newer one finds (on marks the older
      pass 1 made, where the two passes agree). */
  lemma ClassifyAsCurrent(link: Classifier.Link, scene: Classifier.Scene, htmlLang: string,
                          cfg: Options.Config)
    requires I18n.LegacyLang(htmlLang).Some?
    requires cfg.feedFollowed
    requires scene.Listed? ==> Paired(scene.marks)
    ensures Classify(link, scene, htmlLang).Found? <==> Classifier.Classify(link, scene, htmlLang, cfg).Some?
    ensures Classify(link, scene, htmlLang).Found? ==>
      Classify(link, scene, htmlLang).model == Classifier.Classify(link, scene, htmlLang, cfg).value
  {
    LegacyLangIsCurrent(htmlLang);
  }

  /** `getTargetModel` with pass 1's marks written to the summary's group. */
  method GetTargetModel(anchor: Classifier.Anchor, htmlLang: string) returns (c: Classified)
    modifies anchor.place.Groups()
    ensures c == Classify(anchor.link, old(Classifier.SceneOf(anchor.place)), htmlLang)
    ensures anchor.place.InSummary? ==>
      anchor.place.group.marks == Pass1(anchor.link, old(anchor.place.group.marks), htmlLang)
      && anchor.place.group.hideList == old(anchor.place.group.hideList)
    ensures !anchor.place.InSummary? ==> forall g :: g in anchor.place.Groups() ==> unchanged(g)
  {
    c := Classify(anchor.link, Classifier.SceneOf(anchor.place), htmlLang);
    if anchor.place.InSummary? {
      var g := anchor.place.group;
      g.marks := Pass1(anchor.link, g.marks, htmlLang);
    }
  }

  // ---------------------------------------------------------------------------------------
  // the profile
  // ---------------------------------------------------------------------------------------

  /** `isStale`: data refreshed more than 7 days ago. */
  function IsStale(data: Option<Store.ProfileData>, updated: int, now: int): bool
  {
    data.Some? && updated != 0 && IsOlderThan(updated, 7, now)
  }

  /** `isOld`: gated on `updated` (not `created`), refreshed more than 14 days ago. */
  function IsOld(data: Option<Store.ProfileData>, updated: int, now: int): bool
  {
    data.Some? && updated != 0 && IsOlderThan(updated, 14, now)
  }

  /** The fixed windows are the newer defaults: staleness agrees with a 7-day setting, and
      age agrees with a 14-day setting whenever the record has a creation time. */
  lemma AgesAsCurrent(data: Option<Store.ProfileData>, created: int, updated: int,
                      cfg: Options.Config, now: int)
    requires cfg.updatedDays == 7 && cfg.createdDays == 14
    ensures IsStale(data, updated, now) == Profiles.IsStale(data, updated, cfg, now)
    ensures created != 0 ==> IsOld(data, updated, now) == Profiles.IsOld(data, created, updated, cfg, now)
    ensures created == 0 ==> !Profiles.IsOld(data, created, updated, cfg, now)
  {
  }

  /** What `save` writes: no visibility field. */
  function SavedRecord(created: int, data: Option<Store.ProfileData>, now: int): (r: Store.Item)
    ensures r.Record? && r.updated == now && r.visible.None? && r.data == data
    ensures r.created == (if created != 0 then created else now)
  {
    Store.Record(if created != 0 then created else now, now, None, data)
  }

  class Profile {
    const handle: string
    var data: Option<Store.ProfileData>
    var created: int
    var updated: int

    constructor (handle: string)
      ensures this.handle == handle && data.None? && created == 0 && updated == 0
    {
      this.handle := handle;
      data := None;
      created := 0;
      updated := 0;
    }

    function Key(): string
    {
      Store.ProfileKey(handle)
    }

    /** `load()`: the three fields are always overwritten from the stored value. */
    method Load(store: Store.Storage)
      modifies this
      ensures var r := Profiles.AsRecord(old(store.Get(Key())));
        created == r.created && updated == r.updated && data == r.data
    {
      var item := Profiles.AsRecord(store.Get(Key()));
      created := item.created;
      updated := item.updated;
      data := item.data;
    }

    method Save(store: Store.Storage, now: int)
      modifies store
      ensures store.items == old(store.items)[Key() := SavedRecord(created, data, now)]
    {
      store.Set(Key(), SavedRecord(created, data, now));
    }

    /** `fetch()`: no load first; a reply body replaces the data, anything else ends the
        caller with the data as it was. */
    method Fetch(reply: Api.Outcome<Profiles.ApiProfile>) returns (ok: bool)
      modifies this
      ensures ok <==> reply.Returned?
      ensures data == (if ok then Some(Profiles.FromApi(reply.body)) else old(data))
      ensures created == old(created) && updated == old(updated)
    {
      if reply.Returned? {
        data := Some(Profiles.FromApi(reply.body));
        ok := true;
      } else {
        ok := false;
      }
    }
  }

  // ---------------------------------------------------------------------------------------
  // processing a link (`processElement`, `renderData`)
  // ---------------------------------------------------------------------------------------

  /** What `renderData` amounts to: the renderings in order (each with its `bfi-following`
      flag) and the record saved, if any. */
  datatype Rendered = Rendered(views: seq<(Render.View, bool)>, saved: Option<Store.Item>)

  function RenderDataSpec(item: Store.Item, reply: Api.Outcome<Profiles.ApiProfile>, now: int): Rendered
  {
    var r := Profiles.AsRecord(item);
    var cached := if r.data.Some? then [Render.LegacyRenderContent(r.data, IsOld(r.data, r.updated, now))] else [];
    if r.data.Some? && !IsStale(r.data, r.updated, now) then Rendered(cached, None)
    else if !reply.Returned? then Rendered(cached, None)
    else
      var d := Some(Profiles.FromApi(reply.body));
      Rendered(cached + [Render.LegacyRenderContent(d, IsOld(d, r.updated, now))],
               Some(SavedRecord(r.created, d, now)))
  }

  /** `renderData(model)` on a fresh profile. */
  method RenderData(handle: string, store: Store.Storage, reply: Api.Outcome<Profiles.ApiProfile>, now: int)
    returns (shown: seq<(Render.View, bool)>)
    modifies store
    ensures var key := Store.ProfileKey(handle);
      var o := RenderDataSpec(old(store.Get(key)), reply, now);
      && shown == o.views
      && store.items == (if o.saved.Some? then old(store.items)[key := o.saved.value] else old(store.items))
  {
    var p := new Profile(handle);
    shown := [];
    p.Load(store);
    if p.data.Some? {
      shown := [Render.LegacyRenderContent(p.data, IsOld(p.data, p.updated, now))];
    }
    if p.data.None? || IsStale(p.data, p.updated, now) {
      var ok := p.Fetch(reply);
      if !ok {
        return;
      }
      if p.data.Some? {
        p.Save(store, now);
        shown := shown + [Render.LegacyRenderContent(p.data, IsOld(p.data, p.updated, now))];
      }
    }
  }

  /** `processElement(link)`: a classifier that throws ends the call (rejecting its promise)
      before the link is marked, so the link still matches the unprocessed-link selector if
      it is added to the page again; otherwise the link is marked and a found model is
      rendered. Pass 1's marks on a summary's group are written either way. */
  method ProcessElement(anchor: Classifier.Anchor, store: Store.Storage,
                        reply: Api.Outcome<Profiles.ApiProfile>, htmlLang: string, now: int)
    returns (shown: seq<(Render.View, bool)>)
    modifies anchor, anchor.place.Groups(), store
    ensures var c := Classify(anchor.link, old(Classifier.SceneOf(anchor.place)), htmlLang);
      && anchor.processed == (old(anchor.processed) || !c.Threw?)
      && (!c.Found? ==> shown == [] && store.items == old(store.items))
      && (c.Found? ==>
            var key := Store.ProfileKey(c.model.handle);
            var o := RenderDataSpec(old(store.Get(key)), reply, now);
            && shown == o.views
            && store.items == (if o.saved.Some? then old(store.items)[key := o.saved.value] else old(store.items)))
    ensures anchor.place.InSummary? ==>
      anchor.place.group.marks == Pass1(anchor.link, old(anchor.place.group.marks), htmlLang)
      && anchor.place.group.hideList == old(anchor.place.group.hideList)
    ensures anchor.place.InList? ==> unchanged(anchor.place.group)
  {
    shown := [];
    var c := GetTargetModel(anchor, htmlLang);
    if c.Threw? {
      return;
    }
    anchor.processed := true;
    if c.Found? {
      shown := RenderData(c.model.handle, store, reply, now);
    }
  }

  /** Against the newer handler under the default windows: the same records are saved,
      except that the older one stores no visibility, and as many renderings are made. */
  lemma RenderDataAsCurrent(item: Store.Item, visible0: bool, reply: Api.Outcome<Profiles.ApiProfile>,
                            htmlLang: string, cfg: Options.Config, now: int)
    requires cfg.updatedDays == 7
    ensures var older := RenderDataSpec(item, reply, now);
      var newer := Handlers.RevealSpec(item, visible0, reply, htmlLang, cfg, now);
      && |older.views| == |newer.views|
      && (older.saved.Some? <==> newer.saved.Some?)
      && (older.saved.Some? ==> older.saved.value == newer.saved.value.(visible := None))
  {
  }

  /** The older handler never shows the error rendering: every view comes from loaded or
      fetched data. */
  lemma RenderDataNeverFails(item: Store.Item, reply: Api.Outcome<Profiles.ApiProfile>, now: int, i: nat)
    requires i < |RenderDataSpec(item, reply, now).views|
    ensures RenderDataSpec(item, reply, now).views[i].0.Card?
  {
  }
}
