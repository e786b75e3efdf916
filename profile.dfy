/** The in-memory profile of the current content script (`Profile`): its cached record,
    the age tests on it, its load/save/fetch cycle against the store and the API, and the
    pool that keeps one instance per handle. */
module Profiles {
  import opened Common
  import Options
  import Store
  import Api

  /** The fields of an `app.bsky.actor.getProfile` reply that are read. `viewerFollowing` is
      `viewer.following`, the record URI of the user's own follow, when there is one. */
  datatype ApiProfile = ApiProfile(
    description: Option<string>, followsCount: int, followersCount: int, postsCount: int,
    viewerFollowing: Option<string>)

  /** The mapping of `fetch`: `followsCount` becomes `followingCount`, and `following` is
      `!!viewer?.following`. */
  function FromApi(reply: ApiProfile): (d: Store.ProfileData)
    ensures d.followingCount == reply.followsCount && d.followersCount == reply.followersCount
    ensures d.postsCount == reply.postsCount && d.description == reply.description
    ensures d.following <==> reply.viewerFollowing.Some? && |reply.viewerFollowing.value| > 0
  {
    Store.ProfileData(reply.description, reply.followsCount, reply.followersCount,
      reply.postsCount, reply.viewerFollowing.Some? && reply.viewerFollowing.value != "")
  }

  /** A stored value read as a profile record: anything other than a record has none of
      the record's fields. */
  function AsRecord(item: Store.Item): (r: Store.Item)
    ensures r.Record?
    ensures item.Record? ==> r == item
  {
    if item.Record? then item else Store.Blank
  }

  /** `isStale`: cached data last refreshed more than `thresholds.updated` days ago. */
  function IsStale(data: Option<Store.ProfileData>, updated: int, cfg: Options.Config, now: int): bool
  {
    data.Some? && updated != 0 && IsOlderThan(updated, cfg.updatedDays, now)
  }

  /** `isOld`: gated on `created` being set, yet measured from `updated`, against
      `thresholds.created` days. */
  function IsOld(data: Option<Store.ProfileData>, created: int, updated: int,
                 cfg: Options.Config, now: int): bool
  {
    data.Some? && created != 0 && IsOlderThan(updated, cfg.createdDays, now)
  }

  /** `isStale` holds exactly when there is data, `updated` is set, and more than the
      threshold's days have passed since it. */
  lemma IsStaleExactly(data: Option<Store.ProfileData>, updated: int, cfg: Options.Config, now: int)
    ensures IsStale(data, updated, cfg, now) <==>
      data.Some? && updated != 0 && now > updated + DAY * cfg.updatedDays
    ensures updated == 0 ==> !IsStale(data, updated, cfg, now)
  {
  }

  /** `isOld` looks at `created` only to see whether it is set: two profiles that differ only
      in a (set) creation time are equally old, and a record created long ago but refreshed
      recently is not old. */
  lemma IsOldIgnoresCreatedAge(data: Option<Store.ProfileData>, c1: int, c2: int, updated: int,
                               cfg: Options.Config, now: int)
    requires c1 != 0 && c2 != 0
    ensures IsOld(data, c1, updated, cfg, now) == IsOld(data, c2, updated, cfg, now)
    ensures data.Some? && updated != 0 ==>
      (IsOld(data, c1, updated, cfg, now) <==> now > updated + DAY * cfg.createdDays)
  {
  }

  /** When the staleness window is no longer than the age window (7 and 14 days by
      default), an old profile is always stale. */
  lemma OldImpliesStale(data: Option<Store.ProfileData>, created: int, updated: int,
                        cfg: Options.Config, now: int)
    requires cfg.updatedDays <= cfg.createdDays
    requires IsOld(data, created, updated, cfg, now)
    ensures IsStale(data, updated, cfg, now)
  {
  }

  /** What `save` writes: `created` is kept when set and is `now` otherwise, `updated` is
      `now`, and the visibility and data are the current ones. */
  function SavedRecord(created: int, visible: bool, data: Option<Store.ProfileData>, now: int): (r: Store.Item)
    ensures r.Record? && r.updated == now && r.visible == Some(visible) && r.data == data
    ensures created != 0 ==> r.created == created
    ensures created == 0 ==> r.created == now
  {
    Store.Record(if created != 0 then created else now, now, Some(visible), data)
  }

  /** A record saved once keeps its creation time through every later save. */
  lemma SaveKeepsCreated(created: int, visible: bool, data: Option<Store.ProfileData>,
                         now: int, later: int, visible2: bool, data2: Option<Store.ProfileData>)
    requires now != 0
    ensures var first := SavedRecord(created, visible, data, now);
      SavedRecord(first.created, visible2, data2, later).created == first.created
  {
  }

  class Profile {
    const handle: string
    var data: Option<Store.ProfileData>
    var visible: bool
    var created: int
    var updated: int

    /** `new Profile(handle)`: visible as `behavior.expandProfiles` says, nothing loaded. */
    constructor (handle: string, expandProfiles: bool)
      ensures this.handle == handle && visible == expandProfiles
      ensures data.None? && created == 0 && updated == 0
    {
      this.handle := handle;
      visible := expandProfiles;
      data := None;
      created := 0;
      updated := 0;
    }

    /** `storageKey` */
    function Key(): string
    {
      Store.ProfileKey(handle)
    }

    /** `load()`: `Storage.get` never comes back empty-handed (it defaults to `{}`), so the
        timestamps and data are always overwritten; the visibility only when the record
        has one. */
    method Load(store: Store.Storage)
      modifies this
      ensures var r := AsRecord(old(store.Get(Key())));
        && created == r.created && updated == r.updated && data == r.data
        && visible == r.visible.GetOr(old(visible))
    {
      var item := AsRecord(store.Get(Key()));
      created := item.created;
      updated := item.updated;
      visible := item.visible.GetOr(visible);
      data := item.data;
    }

    /** `save()`: writes the record; the in-memory timestamps are left as they were. */
    method Save(store: Store.Storage, now: int)
      modifies store
      ensures store.items == old(store.items)[Key() := SavedRecord(created, visible, data, now)]
    {
      store.Set(Key(), SavedRecord(created, visible, data, now));
    }

    /** `fetch()`: load first when `created` is not set, then ask the API. A reply body
        replaces the data (`ok`); `null` makes the destructuring throw and a failed request
        rejects, and either way the data is left as it was and the caller stops. */
    method Fetch(store: Store.Storage, reply: Api.Outcome<ApiProfile>) returns (ok: bool)
      modifies this
      ensures ok <==> reply.Returned?
      ensures ok ==> data == Some(FromApi(reply.body))
      ensures old(created) != 0 ==>
        (created == old(created) && updated == old(updated) && visible == old(visible)
         && (!ok ==> data == old(data)))
      ensures old(created) == 0 ==>
        (var r := AsRecord(old(store.Get(Key())));
         created == r.created && updated == r.updated && visible == r.visible.GetOr(old(visible))
         && (!ok ==> data == r.data))
    {
      if created == 0 {
        Load(store);
      }
      if reply.Returned? {
        data := Some(FromApi(reply.body));
        ok := true;
      } else {
        ok := false;
      }
    }

    /** `show(state)`: set the visibility and save. */
    method Show(store: Store.Storage, state: bool, now: int)
      modifies this, store
      ensures visible == state && data == old(data) && created == old(created)
      ensures updated == old(updated)
      ensures store.items == old(store.items)[Key() := SavedRecord(created, state, data, now)]
    {
      visible := state;
      Save(store, now);
    }
  }

  /** `Profile.pool` with `Profile.get`. */
  class ProfilePool {
    var profiles: map<string, Profile>

    constructor ()
      ensures profiles == map[]
    {
      profiles := map[];
    }

    /** Every pooled profile sits under its own handle. */
    predicate Valid()
      reads this
    {
      forall h :: h in profiles ==> profiles[h].handle == h
    }

    /** `Profile.get(handle)`: the pooled instance, or a new one that is pooled. An existing
        entry is never replaced and no other entry changes. */
    method Get(handle: string, expandProfiles: bool) returns (p: Profile)
      requires Valid()
      modifies this
      ensures Valid()
      ensures handle in profiles && p == profiles[handle] && p.handle == handle
      ensures handle in old(profiles) ==> p == old(profiles)[handle] && profiles == old(profiles)
      ensures handle !in old(profiles) ==>
        fresh(p) && profiles == old(profiles)[handle := p]
        && p.visible == expandProfiles && p.data.None? && p.created == 0
    {
      if handle in profiles {
        p := profiles[handle];
      } else {
        p := new Profile(handle, expandProfiles);
        profiles := profiles[handle := p];
      }
    }
  }

  /** Asking the pool twice for the same handle yields the same instance, and the pool
      grows by at most one entry per handle. */
  method GetTwice(pool: ProfilePool, handle: string, expandProfiles: bool)
    returns (p: Profile, q: Profile)
    requires pool.Valid()
    modifies pool
    ensures p == q && pool.Valid()
    ensures pool.profiles.Keys == old(pool.profiles.Keys) + {handle}
  {
    p := pool.Get(handle, expandProfiles);
    q := pool.Get(handle, expandProfiles);
  }
}
