/** The two event handlers of the current content script: a profile link coming into view
    (`onProfileLinkRevealed`) and a follow button being re-rendered after a click
    (`onFollowButtonRendered`). Each handler is a method over the page's objects, proved
    against a function that says, from the stored record and the API's answer, what is
    shown and what is saved. */
module Handlers {
  import opened Common
  import Options
  import Store
  import Api
  import I18n
  import Render
  import Profiles
  import Classifier

  // ---------------------------------------------------------------------------------------
  // a profile link comes into view
  // ---------------------------------------------------------------------------------------

  /** What revealing a classified link amounts to: the renderings in the order they are
      made, the record saved (if any), and the profile's visibility afterwards. */
  datatype Reveal = Reveal(views: seq<Render.View>, saved: Option<Store.Item>, visible: bool)

  /** Load the stored record (`item`; `visible0` is the in-memory visibility before the
      load), render cached data, and when there is none or it is stale fetch, collapse a
      followed profile seen for the first time, save and render again. A fetch that fails
      ends the handler. */
  function RevealSpec(item: Store.Item, visible0: bool, reply: Api.Outcome<Profiles.ApiProfile>,
                      htmlLang: string, cfg: Options.Config, now: int): Reveal
  {
    var r := Profiles.AsRecord(item);
    var visible := r.visible.GetOr(visible0);
    var cached :=
      if r.data.Some?
      then [Render.RenderContent(r.data, Profiles.IsOld(r.data, r.created, r.updated, cfg, now), htmlLang, cfg)]
      else [];
    if r.data.Some? && !Profiles.IsStale(r.data, r.updated, cfg, now) then Reveal(cached, None, visible)
    else if !reply.Returned? then Reveal(cached, None, visible)
    else
      var d := Some(Profiles.FromApi(reply.body));
      var vis := if r.created == 0 && d.value.following then false else visible;
      Reveal(cached + [Render.RenderContent(d, Profiles.IsOld(d, r.created, r.updated, cfg, now), htmlLang, cfg)],
             Some(Profiles.SavedRecord(r.created, vis, d, now)), vis)
  }

  /** The visibility a pooled profile has before it is loaded. */
  function PooledVisible(profiles: map<string, Profiles.Profile>, handle: string, cfg: Options.Config): bool
    reads if handle in profiles then {profiles[handle]} else {}
  {
    if handle in profiles then profiles[handle].visible else cfg.expandProfiles
  }

  /** `onProfileLinkRevealed(link)`. The link is always marked processed and a summary's
      group gets pass 1's marks; an unclassified link changes nothing else, and a classified
      one changes only its own profile and its record. `shown` lists the renderings of the
      link's content. */
  method OnProfileLinkRevealed(anchor: Classifier.Anchor, pool: Profiles.ProfilePool, store: Store.Storage,
                               reply: Api.Outcome<Profiles.ApiProfile>, htmlLang: string,
                               cfg: Options.Config, now: int)
    returns (shown: seq<Render.View>)
    requires pool.Valid()
    modifies anchor, anchor.place.Groups(), pool, pool.profiles.Values, store
    ensures pool.Valid() && anchor.processed
    ensures var m := Classifier.Classify(anchor.link, old(Classifier.SceneOf(anchor.place)), htmlLang, cfg);
      && (m.None? ==> shown == [] && store.items == old(store.items) && pool.profiles == old(pool.profiles))
      && (m.Some? ==>
            var key := Store.ProfileKey(m.value.handle);
            var o := RevealSpec(old(store.Get(key)), old(PooledVisible(pool.profiles, m.value.handle, cfg)),
                                reply, htmlLang, cfg, now);
            && shown == o.views
            && m.value.handle in pool.profiles && pool.profiles[m.value.handle].visible == o.visible
            && store.items == (if o.saved.Some? then old(store.items)[key := o.saved.value] else old(store.items)))
    ensures var m := Classifier.Classify(anchor.link, old(Classifier.SceneOf(anchor.place)), htmlLang, cfg);
      forall h :: h in old(pool.profiles) && (m.None? || h != m.value.handle) ==>
        h in pool.profiles && pool.profiles[h] == old(pool.profiles)[h] && unchanged(pool.profiles[h])
    ensures anchor.place.InSummary? ==>
      anchor.place.group.marks == Classifier.Pass1(anchor.link, old(anchor.place.group.marks),
                                                   anchor.place.group.description, htmlLang, cfg)
      && anchor.place.group.hideList == old(anchor.place.group.hideList)
    ensures anchor.place.InList? ==> unchanged(anchor.place.group)
  {
    var model := Mark(anchor, htmlLang, cfg);
    shown := [];
    if model.None? {
      return;
    }
    shown := Serve(pool, model.value.handle, store, reply, htmlLang, cfg, now);
  }

  /** The first steps of `onProfileLinkRevealed`: classify the link (writing pass 1's marks)
      and mark it processed. */
  method Mark(anchor: Classifier.Anchor, htmlLang: string, cfg: Options.Config)
    returns (m: Option<Classifier.ContentModel>)
    modifies anchor, anchor.place.Groups()
    ensures m == Classifier.Classify(anchor.link, old(Classifier.SceneOf(anchor.place)), htmlLang, cfg)
    ensures anchor.processed
    ensures anchor.place.InSummary? ==>
      anchor.place.group.marks == Classifier.Pass1(anchor.link, old(anchor.place.group.marks),
                                                   anchor.place.group.description, htmlLang, cfg)
      && anchor.place.group.hideList == old(anchor.place.group.hideList)
    ensures anchor.place.InList? ==> unchanged(anchor.place.group)
  {
    m := Classifier.GetContentModel(anchor, htmlLang, cfg);
    anchor.processed := true;
  }

  /** The profile of `handle` taken from the pool and presented; no other pooled profile
      changes. */
  method Serve(pool: Profiles.ProfilePool, handle: string, store: Store.Storage,
               reply: Api.Outcome<Profiles.ApiProfile>, htmlLang: string, cfg: Options.Config, now: int)
    returns (shown: seq<Render.View>)
    requires pool.Valid()
    modifies pool, pool.profiles.Values, store
    ensures pool.Valid()
    ensures var key := Store.ProfileKey(handle);
      var o := RevealSpec(old(store.Get(key)), old(PooledVisible(pool.profiles, handle, cfg)),
                          reply, htmlLang, cfg, now);
      && shown == o.views
      && handle in pool.profiles && pool.profiles[handle].visible == o.visible
      && store.items == (if o.saved.Some? then old(store.items)[key := o.saved.value] else old(store.items))
    ensures forall h :: h in old(pool.profiles) && h != handle ==>
      h in pool.profiles && pool.profiles[h] == old(pool.profiles)[h] && unchanged(pool.profiles[h])
  {
    var p := pool.Get(handle, cfg.expandProfiles);
    shown := Present(p, store, reply, htmlLang, cfg, now);
  }

  /** The part of `onProfileLinkRevealed` after the profile is taken from the pool. */
  method Present(p: Profiles.Profile, store: Store.Storage, reply: Api.Outcome<Profiles.ApiProfile>,
                 htmlLang: string, cfg: Options.Config, now: int)
    returns (shown: seq<Render.View>)
    modifies p, store
    ensures var o := RevealSpec(old(store.Get(p.Key())), old(p.visible), reply, htmlLang, cfg, now);
      && shown == o.views && p.visible == o.visible
      && store.items == (if o.saved.Some? then old(store.items)[p.Key() := o.saved.value] else old(store.items))
  {
    shown := [];
    p.Load(store);
    var firstLoad := p.created == 0;
    if p.data.Some? {
      shown := [Render.RenderContent(p.data, Profiles.IsOld(p.data, p.created, p.updated, cfg, now), htmlLang, cfg)];
    }
    if p.data.None? || Profiles.IsStale(p.data, p.updated, cfg, now) {
      var ok := p.Fetch(store, reply);
      if !ok {
        return;
      }
      if p.data.Some? {
        if firstLoad && p.data.value.following {
          p.visible := false;
        }
        p.Save(store, now);
        shown := shown + [Render.RenderContent(p.data, Profiles.IsOld(p.data, p.created, p.updated, cfg, now), htmlLang, cfg)];
      }
    }
  }

  /** Cached data that is not stale is shown once and nothing is fetched or saved. */
  lemma FreshCacheShownOnce(item: Store.Item, visible0: bool, reply: Api.Outcome<Profiles.ApiProfile>,
                            htmlLang: string, cfg: Options.Config, now: int)
    requires var r := Profiles.AsRecord(item); r.data.Some? && !Profiles.IsStale(r.data, r.updated, cfg, now)
    ensures var o := RevealSpec(item, visible0, reply, htmlLang, cfg, now);
      |o.views| == 1 && o.saved.None? && o.visible == Profiles.AsRecord(item).visible.GetOr(visible0)
  {
  }

  /** With nothing cached, a failed fetch shows nothing and saves nothing; a successful one
      shows the fetched data once and saves it. */
  lemma NothingCached(item: Store.Item, visible0: bool, reply: Api.Outcome<Profiles.ApiProfile>,
                      htmlLang: string, cfg: Options.Config, now: int)
    requires Profiles.AsRecord(item).data.None?
    ensures var o := RevealSpec(item, visible0, reply, htmlLang, cfg, now);
      && (!reply.Returned? ==> o.views == [] && o.saved.None?)
      && (reply.Returned? ==>
            |o.views| == 1 && o.saved.Some? && o.saved.value.data == Some(Profiles.FromApi(reply.body))
            && o.views[0].Card?)
  {
  }

  /** A refresh keeps the record's creation time (or starts it now), stamps it updated now,
      and stores exactly the data it renders. */
  lemma RefreshSaves(item: Store.Item, visible0: bool, reply: Api.Outcome<Profiles.ApiProfile>,
                     htmlLang: string, cfg: Options.Config, now: int)
    requires var r := Profiles.AsRecord(item); r.data.None? || Profiles.IsStale(r.data, r.updated, cfg, now)
    requires reply.Returned?
    ensures var r := Profiles.AsRecord(item);
      var o := RevealSpec(item, visible0, reply, htmlLang, cfg, now);
      && o.saved == Some(Store.Record(if r.created != 0 then r.created else now, now, Some(o.visible),
                                      Some(Profiles.FromApi(reply.body))))
      && |o.views| >= 1 && o.views[|o.views| - 1].Card? && |o.views[|o.views| - 1].stats| == 3
      && o.views[|o.views| - 1].stats[0].count == reply.body.postsCount
  {
    var r := Profiles.AsRecord(item);
    var d := Some(Profiles.FromApi(reply.body));
    var o := RevealSpec(item, visible0, reply, htmlLang, cfg, now);
    assert o.views[|o.views| - 1]
      == Render.RenderContent(d, Profiles.IsOld(d, r.created, r.updated, cfg, now), htmlLang, cfg);
  }

  /** A profile the user already follows is collapsed when it is first stored, and only
      then: a profile with a stored creation time keeps its visibility. */
  lemma FirstSightOfFollowedCollapses(item: Store.Item, visible0: bool, reply: Api.Outcome<Profiles.ApiProfile>,
                                      htmlLang: string, cfg: Options.Config, now: int)
    requires var r := Profiles.AsRecord(item); r.data.None? || Profiles.IsStale(r.data, r.updated, cfg, now)
    requires reply.Returned?
    ensures var r := Profiles.AsRecord(item);
      var o := RevealSpec(item, visible0, reply, htmlLang, cfg, now);
      && (r.created == 0 && Profiles.FromApi(reply.body).following ==>
            !o.visible && o.saved.value.visible == Some(false))
      && (r.created != 0 ==> o.visible == r.visible.GetOr(visible0))
  {
  }

  /** The error rendering is never produced by the handler: every view it makes comes from
      loaded or fetched data. */
  lemma RevealNeverFails(item: Store.Item, visible0: bool, reply: Api.Outcome<Profiles.ApiProfile>,
                         htmlLang: string, cfg: Options.Config, now: int, i: nat)
    requires i < |RevealSpec(item, visible0, reply, htmlLang, cfg, now).views|
    ensures RevealSpec(item, visible0, reply, htmlLang, cfg, now).views[i].Card?
  {
  }

  /** The refreshed rendering is dimmed by the timestamps loaded before the refresh (the
      save does not update them in memory): data refreshed from a record that was old is
      still shown dimmed. */
  lemma RefreshedStillDim(item: Store.Item, visible0: bool, reply: Api.Outcome<Profiles.ApiProfile>,
                          htmlLang: string, cfg: Options.Config, now: int)
    requires var r := Profiles.AsRecord(item); Profiles.IsOld(r.data, r.created, r.updated, cfg, now)
    requires reply.Returned? && cfg.updatedDays <= cfg.createdDays
    ensures var o := RevealSpec(item, visible0, reply, htmlLang, cfg, now);
      |o.views| == 2 && o.views[0].dim && o.views[1].dim && o.saved.Some?
  {
    var r := Profiles.AsRecord(item);
    Profiles.OldImpliesStale(r.data, r.created, r.updated, cfg, now);
  }

  // ---------------------------------------------------------------------------------------
  // a follow button is re-rendered
  // ---------------------------------------------------------------------------------------

  datatype Action = Follow | Unfollow

  /** The action behind a button label. A button now reading "Following" was just used to
      follow, one reading "Follow" to unfollow. An empty or missing label is no action. On a
      page language without a phrase table the source throws (`getLang()` yields nothing, and
      reading its `aria` fails); the throw ends the handler before anything is loaded, saved
      or rendered, which is what `None` does here. */
  function FollowAction(buttonLabel: Option<string>, htmlLang: string): Option<Action>
  {
    if buttonLabel.None? || buttonLabel.value == "" then None
    else match I18n.GetLang(htmlLang, "")
      case None => None
      case Some(phrases) =>
        if buttonLabel.value == phrases.aria.following then Some(Follow)
        else if buttonLabel.value == phrases.aria.follow then Some(Unfollow)
        else None
  }

  /** The button labels of each supported language map to their actions. */
  lemma FollowActionCases(buttonLabel: string, htmlLang: string)
    requires I18n.GetLang(htmlLang, "").Some?
    ensures var aria := I18n.GetLang(htmlLang, "").value.aria;
      && (FollowAction(Some(buttonLabel), htmlLang) == Some(Follow) <==> buttonLabel == aria.following)
      && (FollowAction(Some(buttonLabel), htmlLang) == Some(Unfollow) <==> buttonLabel == aria.follow)
  {
    var aria := I18n.GetLang(htmlLang, "").value.aria;
    assert aria.following != aria.follow by {
      var lang := I18n.LangCode(htmlLang);
      assert lang == "en" || lang == "fr" || lang == "es";
    }
  }

  /** The local correction of freshly fetched data: the API does not yet count the click, so
      a follow adds the user to the followers (unless already counted) and an unfollow
      removes one. */
  function ApplyFollow(d: Store.ProfileData, action: Action): (r: Store.ProfileData)
    ensures r.following <==> action == Follow
    ensures r.description == d.description && r.followingCount == d.followingCount
    ensures r.postsCount == d.postsCount
  {
    d.(followersCount := d.followersCount + (if action == Follow then (if d.following then 0 else 1) else -1),
       following := action == Follow)
  }

  /** Following twice counts the user once. */
  lemma FollowIdempotent(d: Store.ProfileData)
    ensures ApplyFollow(ApplyFollow(d, Follow), Follow) == ApplyFollow(d, Follow)
    ensures ApplyFollow(d, Follow).followersCount == d.followersCount + (if d.following then 0 else 1)
  {
  }

  /** Following and then unfollowing a profile not yet followed restores its data. */
  lemma FollowThenUnfollow(d: Store.ProfileData)
    requires !d.following
    ensures ApplyFollow(ApplyFollow(d, Follow), Unfollow) == d
  {
  }

  /** An unfollow always removes one follower, even when the fetched data says the user
      was not following, so two unfollows remove two. */
  lemma UnfollowAlwaysDecrements(d: Store.ProfileData)
    ensures ApplyFollow(d, Unfollow).followersCount == d.followersCount - 1
    ensures ApplyFollow(ApplyFollow(d, Unfollow), Unfollow).followersCount == d.followersCount - 2
  {
  }

  /** What a button re-render amounts to: the view every annotation of the handle is
      re-rendered with, and the record saved. */
  datatype Refollow = Refollow(view: Option<Render.View>, saved: Option<Store.Item>)

  function FollowSpec(buttonLabel: Option<string>, item: Store.Item, visible0: bool,
                      reply: Api.Outcome<Profiles.ApiProfile>, htmlLang: string,
                      cfg: Options.Config, now: int): Refollow
  {
    match FollowAction(buttonLabel, htmlLang)
    case None => Refollow(None, None)
    case Some(action) => ClickSpec(action, item, visible0, reply, htmlLang, cfg, now)
  }

  /** A recognised click: with a reply body, the corrected data is saved and rendered. */
  function ClickSpec(action: Action, item: Store.Item, visible0: bool,
                     reply: Api.Outcome<Profiles.ApiProfile>, htmlLang: string,
                     cfg: Options.Config, now: int): Refollow
  {
    if !reply.Returned? then Refollow(None, None)
    else
      var r := Profiles.AsRecord(item);
      var d := Some(ApplyFollow(Profiles.FromApi(reply.body), action));
      Refollow(Some(Render.RenderContent(d, Profiles.IsOld(d, r.created, r.updated, cfg, now), htmlLang, cfg)),
               Some(Profiles.SavedRecord(r.created, r.visible.GetOr(visible0), d, now)))
  }

  /** A recognised click stores and shows the corrected counts, with the follow icon exactly
      when the click was a follow; anything else changes nothing. */
  lemma FollowSpecEffect(buttonLabel: Option<string>, item: Store.Item, visible0: bool,
                         reply: Api.Outcome<Profiles.ApiProfile>, htmlLang: string,
                         cfg: Options.Config, now: int)
    ensures var o := FollowSpec(buttonLabel, item, visible0, reply, htmlLang, cfg, now);
      var action := FollowAction(buttonLabel, htmlLang);
      && (action.None? || !reply.Returned? ==> o.view.None? && o.saved.None?)
      && (action.Some? && reply.Returned? ==>
            var d := ApplyFollow(Profiles.FromApi(reply.body), action.value);
            && o.saved.Some? && o.saved.value.data == Some(d) && o.saved.value.updated == now
            && o.view.Some? && o.view.value.Card?
            && o.view.value.stats[1].count == d.followersCount
            && (o.view.value.stats[2].icon == Some(Render.Followed) <==> action.value == Follow))
  {
    var action := FollowAction(buttonLabel, htmlLang);
    if action.Some? && reply.Returned? {
      var d := ApplyFollow(Profiles.FromApi(reply.body), action.value);
      var r := Profiles.AsRecord(item);
      Render.RenderCard(d, Profiles.IsOld(Some(d), r.created, r.updated, cfg, now), htmlLang, cfg);
    }
  }

  /** `onFollowButtonRendered(button, handle)`: on a recognised click, load, fetch, correct
      the counts, save, and re-render every annotation of the handle with `shown`. */
  method OnFollowButtonRendered(buttonLabel: Option<string>, handle: string, pool: Profiles.ProfilePool,
                                store: Store.Storage, reply: Api.Outcome<Profiles.ApiProfile>,
                                htmlLang: string, cfg: Options.Config, now: int)
    returns (shown: Option<Render.View>)
    requires pool.Valid()
    modifies pool, pool.profiles.Values, store
    ensures pool.Valid()
    ensures var key := Store.ProfileKey(handle);
      var o := FollowSpec(buttonLabel, old(store.Get(key)), old(PooledVisible(pool.profiles, handle, cfg)),
                          reply, htmlLang, cfg, now);
      && shown == o.view
      && store.items == (if o.saved.Some? then old(store.items)[key := o.saved.value] else old(store.items))
      && pool.profiles.Keys == old(pool.profiles.Keys) + (if FollowAction(buttonLabel, htmlLang).Some? then {handle} else {})
    ensures forall h :: h in old(pool.profiles) && h != handle ==>
      pool.profiles[h] == old(pool.profiles)[h] && unchanged(pool.profiles[h])
  {
    shown := None;
    var action := FollowAction(buttonLabel, htmlLang);
    if action.None? {
      return;
    }
    var p := pool.Get(handle, cfg.expandProfiles);
    shown := Click(p, action.value, store, reply, htmlLang, cfg, now);
  }

  /** The part of `onFollowButtonRendered` after the profile is taken from the pool. */
  method Click(p: Profiles.Profile, action: Action, store: Store.Storage,
               reply: Api.Outcome<Profiles.ApiProfile>, htmlLang: string, cfg: Options.Config, now: int)
    returns (shown: Option<Render.View>)
    modifies p, store
    ensures var o := ClickSpec(action, old(store.Get(p.Key())), old(p.visible), reply, htmlLang, cfg, now);
      && shown == o.view
      && store.items == (if o.saved.Some? then old(store.items)[p.Key() := o.saved.value] else old(store.items))
  {
    shown := None;
    p.Load(store);
    var ok := p.Fetch(store, reply);
    if !ok {
      return;
    }
    if p.data.Some? {
      p.data := Some(ApplyFollow(p.data.value, action));
      p.Save(store, now);
      shown := Some(Render.RenderContent(p.data, Profiles.IsOld(p.data, p.created, p.updated, cfg, now), htmlLang, cfg));
    }
  }
}
