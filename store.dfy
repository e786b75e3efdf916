/** The local cache store (`Storage`): a flat key/value space holding the schema version,
    the options and one record per profile, with a version gate and a retention sweep.
    Both variants of the content script share this code; only the version string differs. */
module Store {
  import opened Common
  import Options

  /** The profile snapshot taken from the API (`ProfileData`). */
  datatype ProfileData = ProfileData(
    description: Option<string>,
    followingCount: int,
    followersCount: int,
    postsCount: int,
    following: bool)

  /** A value in the store. */
  datatype Item =
    /** the `version` entry */
    | Text(s: string)
    /** a profile record `{created, updated, visible, data}`; a missing field is 0 or None */
    | Record(created: int, updated: int, visible: Option<bool>, data: Option<ProfileData>)
    /** the `options` entry written by the options page */
    | Settings(table: Options.Table)

  /** `{}`: what `Storage.get` returns for a key that is not stored. */
  const Blank: Item := Record(0, 0, None, None)

  /** Days after `created` at which a record is purged. */
  const RETENTION_DAYS: int := 30

  /** `profile:<handle>`, the key of a profile's record. */
  function ProfileKey(handle: string): string
  {
    "profile:" + handle
  }

  /** Profile keys never collide with each other nor with the `version` and `options` keys. */
  lemma ProfileKeyDistinct(a: string, b: string)
    ensures ProfileKey(a) == ProfileKey(b) ==> a == b
    ensures ProfileKey(a) != "version" && ProfileKey(a) != "options"
  {
    if ProfileKey(a) == ProfileKey(b) {
      assert a == ProfileKey(a)[8..] && b == ProfileKey(b)[8..];
    }
    assert ProfileKey(a)[..8] == "profile:";
    assert "options"[..7] == "options";
  }

  /** The sweep's test: `item.created && isOlderThan(item.created, 30)`. Only records have
      a `created` field; the version string and the options object never expire. */
  predicate Expired(item: Item, now: int)
  {
    item.Record? && IsOlderThan(item.created, RETENTION_DAYS, now)
  }

  /** The store after the retention sweep: every expired entry removed, nothing else changed. */
  function Sweep(items: map<string, Item>, now: int): map<string, Item>
  {
    map k | k in items && !Expired(items[k], now) :: items[k]
  }

  /** `Storage.get('version') === version`, with `{}` standing in for a missing entry. */
  predicate VersionMatches(items: map<string, Item>, version: string)
  {
    "version" in items && items["version"] == Text(version)
  }

  /** What `Storage.init` leaves: on a version mismatch only the new version is stored,
      otherwise the store is swept. */
  function Initialized(items: map<string, Item>, version: string, now: int): map<string, Item>
  {
    if VersionMatches(items, version) then Sweep(items, now) else map["version" := Text(version)]
  }

  /** The loop of `Storage.init` that collects the keys to remove. It changes nothing. */
  method CollectExpired(items: map<string, Item>, now: int) returns (keys: seq<string>)
    ensures forall k :: k in keys <==> k in items && Expired(items[k], now)
    ensures forall i, j :: 0 <= i < j < |keys| ==> keys[i] != keys[j]
  {
    keys := [];
    var todo := items.Keys;
    while todo != {}
      invariant todo <= items.Keys
      invariant forall k :: k in keys <==> k in items && k !in todo && Expired(items[k], now)
      invariant forall i, j :: 0 <= i < j < |keys| ==> keys[i] != keys[j]
      decreases todo
    {
      var key :| key in todo;
      var item := items[key];
      if Expired(item, now) {
        keys := keys + [key];
      }
      todo := todo - {key};
    }
  }

  /** The sweep removes exactly the expired entries and leaves every other one untouched. */
  lemma SweepExactly(items: map<string, Item>, now: int, k: string)
    ensures k in Sweep(items, now) <==> k in items && !Expired(items[k], now)
    ensures k in Sweep(items, now) ==> Sweep(items, now)[k] == items[k]
  {
  }

  /** Sweeping twice at the same moment is sweeping once. */
  lemma SweepIdempotent(items: map<string, Item>, now: int)
    ensures Sweep(Sweep(items, now), now) == Sweep(items, now)
  {
  }

  /** After `init` the stored version is the running one, so a second `init` at the same
      moment changes nothing. */
  lemma InitializedIdempotent(items: map<string, Item>, version: string, now: int)
    ensures VersionMatches(Initialized(items, version, now), version)
    ensures Initialized(Initialized(items, version, now), version, now)
      == Initialized(items, version, now)
  {
    var once := Initialized(items, version, now);
    if VersionMatches(items, version) {
      assert !Expired(items["version"], now);
      SweepIdempotent(items, now);
    } else {
      assert Sweep(once, now) == once;
    }
  }

  /** Retention boundary: a record created 31 days ago is purged, one created 29 days ago kept. */
  lemma RetentionBoundary(items: map<string, Item>, now: int, old31: string, young29: string,
                          u: int, v: Option<bool>, d: Option<ProfileData>)
    requires now > 31 * DAY
    requires old31 in items && items[old31] == Record(now - 31 * DAY, u, v, d)
    requires young29 in items && items[young29] == Record(now - 29 * DAY, u, v, d)
    ensures old31 !in Sweep(items, now)
    ensures young29 in Sweep(items, now)
  {
  }

  /** `Storage.version` of the current and of the older content script. */
  const CurrentVersion: string := "1.5.0"
  const LegacyVersion: string := "1.3.0"

  /** A store last initialised by one variant is wiped by the other: only the version entry
      survives a switch between them. */
  lemma VariantSwitchWipes(items: map<string, Item>, now: int, later: int)
    ensures Initialized(Initialized(items, LegacyVersion, now), CurrentVersion, later)
      == map["version" := Text(CurrentVersion)]
    ensures Initialized(Initialized(items, CurrentVersion, now), LegacyVersion, later)
      == map["version" := Text(LegacyVersion)]
  {
    InitializedIdempotent(items, LegacyVersion, now);
    InitializedIdempotent(items, CurrentVersion, now);
  }

  /** The options stored under `options`, if any. */
  function StoredOptions(items: map<string, Item>): Option<Options.Table>
  {
    if "options" in items && items["options"].Settings? then Some(items["options"].table) else None
  }

  /** A version mismatch also wipes the user's options: the next `loadOptions` yields the
      defaults. */
  lemma WipeResetsOptions(items: map<string, Item>, version: string, now: int)
    requires !VersionMatches(items, version)
    ensures StoredOptions(Initialized(items, version, now)) == None
    ensures Options.Merged(Options.Defaults,
      StoredOptions(Initialized(items, version, now)).GetOr(Options.Defaults)) == Options.Defaults
  {
    Options.LoadNothingStored();
  }

  /** `chrome.storage.local` as the content script sees it. */
  class Storage {
    /** `Storage.version` */
    const version: string
    var items: map<string, Item>

    constructor (version: string, items: map<string, Item>)
      ensures this.version == version && this.items == items
    {
      this.version := version;
      this.items := items;
    }

    /** `Storage.get(key)`: the stored value, or `{}` when there is none. */
    function Get(key: string): (r: Item)
      reads this
      ensures key !in items ==> r == Blank
    {
      if key in items then items[key] else Blank
    }

    /** `Storage.set(key, value)` */
    method Set(key: string, value: Item)
      modifies this
      ensures items == old(items)[key := value]
    {
      items := items[key := value];
    }

    /** `Storage.remove(keys)` */
    method Remove(keys: seq<string>)
      modifies this
      ensures items == old(items) - (set k | k in keys)
    {
      items := items - (set k | k in keys);
    }

    /** `chrome.storage.local.clear()` */
    method Clear()
      modifies this
      ensures items == map[]
    {
      items := map[];
    }

    /** `Storage.init()`: clear the store and record the version when the stored version
        differs, otherwise remove every record created more than 30 days ago. */
    method Init(now: int)
      modifies this
      ensures items == Initialized(old(items), version, now)
    {
      var stored := Get("version");
      if stored != Text(version) {
        Clear();
        Set("version", Text(version));
        return;
      }
      var keys := CollectExpired(items, now);
      if |keys| > 0 {
        Remove(keys);
      }
      assert items == Sweep(old(items), now);
    }
  }
}
