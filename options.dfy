/** The options module: the table of defaults, the in-place override merge, `clone`,
    `loadOptions`, and the typed view of a loaded table that the content script reads. */
module Options {
  import opened Common

  /** A leaf of the options object: checkboxes are flags, thresholds numbers, icons text. */
  datatype Value = Flag(on: bool) | Number(n: int) | Text(s: string)

  type Group = map<string, Value>
  type Table = map<string, Group>

  /** The `defaults` table. */
  const Defaults: Table := map[
    "process" := map[
      "feedFollowed" := Flag(true), "listFollowed" := Flag(true),
      "listReposted" := Flag(true), "listLiked" := Flag(true)],
    "behavior" := map["highlightLists" := Flag(true), "expandProfiles" := Flag(true)],
    "profile" := map["emojis" := Flag(true), "compact" := Flag(true)],
    "icons" := map[
      "profile" := Text("\U{2139}\U{FE0F}"), "posted" := Text("\U{1F4DD}"),
      "engaged" := Text("\U{2705}"), "popular" := Text("\U{1F525}"),
      "following" := Text("\U{1F44D}")],
    "thresholds" := map[
      "posted" := Number(5), "engaged" := Number(25),
      "updated" := Number(7), "created" := Number(14)]
  ]

  /** `base[group]`, or the empty group the merge creates when it is missing. */
  function GroupOf(t: Table, g: string): Group
  {
    if g in t then t[g] else map[]
  }

  /** What `mergeOptions(base, over)` leaves in `base`: every key of every group of `over`
      is written over the base's group, a missing group being created first. */
  function Merged(base: Table, over: Table): Table
  {
    map g | g in base.Keys + over.Keys :: if g in over then GroupOf(base, g) + over[g] else base[g]
  }

  /** The part of `over` whose groups lie in `done`. */
  function Restrict(over: Table, done: set<string>): (r: Table)
    ensures r.Keys == over.Keys * done
  {
    map g | g in over && g in done :: over[g]
  }

  /** The part of a group whose keys lie in `done`. */
  function RestrictGroup(over: Group, done: set<string>): (r: Group)
    ensures r.Keys == over.Keys * done
  {
    map k | k in over && k in done :: over[k]
  }

  /** Every key of every group of `over` ends up with `over`'s value. */
  lemma MergedOverrides(base: Table, over: Table, g: string, k: string)
    requires g in over && k in over[g]
    ensures g in Merged(base, over) && k in Merged(base, over)[g]
    ensures Merged(base, over)[g][k] == over[g][k]
  {
  }

  /** A key of `base` that `over` does not mention keeps its value; nothing else changes. */
  lemma MergedKeepsBase(base: Table, over: Table, g: string, k: string)
    requires g in base && k in base[g]
    requires !(g in over && k in over[g])
    ensures g in Merged(base, over) && k in Merged(base, over)[g]
    ensures Merged(base, over)[g][k] == base[g][k]
  {
  }

  /** No key appears that neither side had, and no key is lost. */
  lemma MergedKeys(base: Table, over: Table, g: string)
    ensures g in Merged(base, over) <==> g in base || g in over
    ensures g in Merged(base, over) ==>
      Merged(base, over)[g].Keys == GroupOf(base, g).Keys + GroupOf(over, g).Keys
  {
  }

  /** A group that only `over` has is created, and holds exactly `over`'s keys. */
  lemma MergedNewGroup(base: Table, over: Table, g: string)
    requires g !in base && g in over
    ensures g in Merged(base, over) && Merged(base, over)[g] == over[g]
  {
    assert map[] + over[g] == over[g];
  }

  /** Merging `{}` returns the base unchanged. */
  lemma MergedEmpty(base: Table)
    ensures Merged(base, map[]) == base
  {
  }

  /** Merging the same overrides twice gives the same table as merging them once. */
  lemma MergedIdempotent(base: Table, over: Table)
    ensures Merged(Merged(base, over), over) == Merged(base, over)
  {
    var once := Merged(base, over);
    var twice := Merged(once, over);
    forall g | g in once
      ensures g in twice && twice[g] == once[g]
    {
      if g in over {
        assert GroupOf(once, g) + over[g] == once[g];
      }
    }
  }

  /** Merging a table into itself leaves it as it was. */
  lemma MergedSelf(t: Table)
    ensures Merged(t, t) == t
  {
    forall g | g in t
      ensures Merged(t, t)[g] == t[g]
    {
      assert t[g] + t[g] == t[g];
    }
  }

  /** Folding one more group of `over` into a partial merge. */
  lemma MergedStep(base: Table, over: Table, done: set<string>, g: string)
    requires g in over && g !in done
    ensures var part := Merged(base, Restrict(over, done));
      Merged(base, Restrict(over, done + {g})) == part[g := GroupOf(part, g) + over[g]]
  {
    var part := Merged(base, Restrict(over, done));
    var next := Merged(base, Restrict(over, done + {g}));
    var want := part[g := GroupOf(part, g) + over[g]];
    assert GroupOf(part, g) == GroupOf(base, g);
    forall h | h in next
      ensures h in want && next[h] == want[h]
    {
      if h != g {
        assert h in part;
      }
    }
    forall h | h in want
      ensures h in next
    {
    }
  }

  /** The object that `mergeOptions` updates in place. */
  class Settings {
    var groups: Table

    /** `clone(value)`: a new object holding an equal value (JSON round trip). */
    constructor Clone(t: Table)
      ensures groups == t
    {
      groups := t;
    }

    /** `mergeOptions(this, over)`: for each group of `over`, create it if missing, then
        assign each of its keys. */
    method Merge(over: Table)
      modifies this
      ensures groups == Merged(old(groups), over)
    {
      var pending := over.Keys;
      while pending != {}
        invariant pending <= over.Keys
        invariant groups == Merged(old(groups), Restrict(over, over.Keys - pending))
        decreases pending
      {
        var g :| g in pending;
        MergedStep(old(groups), over, over.Keys - pending, g);
        AssignGroup(g, over[g]);
        assert over.Keys - (pending - {g}) == (over.Keys - pending) + {g};
        pending := pending - {g};
      }
      assert Restrict(over, over.Keys) == over;
    }

    /** The body of the outer `forEach`: create group `g` if it is missing, then assign
        every key of `values` to it. */
    method AssignGroup(g: string, values: Group)
      modifies this
      ensures groups == old(groups)[g := GroupOf(old(groups), g) + values]
    {
      if g !in groups {
        groups := groups[g := map[]];
      }
      ghost var start := GroupOf(old(groups), g);
      var keys := values.Keys;
      assert RestrictGroup(values, values.Keys - keys) == map[];
      assert start + map[] == start;
      assert g in old(groups) ==> old(groups)[g := start] == old(groups);
      while keys != {}
        invariant keys <= values.Keys
        invariant groups == old(groups)[g := start + RestrictGroup(values, values.Keys - keys)]
        decreases keys
      {
        var k :| k in keys;
        ghost var done := values.Keys - keys;
        assert RestrictGroup(values, done + {k}) == RestrictGroup(values, done)[k := values[k]];
        assert (start + RestrictGroup(values, done))[k := values[k]]
          == start + RestrictGroup(values, done + {k});
        groups := groups[g := groups[g][k := values[k]]];
        keys := keys - {k};
        assert values.Keys - keys == done + {k};
      }
      assert values.Keys - keys == values.Keys;
      assert RestrictGroup(values, values.Keys) == values;
    }
  }

  /** `loadOptions()`: the stored overrides (or, when nothing is stored, a clone of the
      defaults) merged into a fresh clone of the defaults. */
  method LoadOptions(stored: Option<Table>) returns (r: Settings)
    ensures fresh(r)
    ensures r.groups == Merged(Defaults, stored.GetOr(Defaults))
  {
    var over := stored.GetOr(Defaults);
    r := new Settings.Clone(Defaults);
    r.Merge(over);
  }

  /** With nothing stored, the loaded options are exactly the defaults. */
  lemma LoadNothingStored()
    ensures Merged(Defaults, None.GetOr(Defaults)) == Defaults
  {
    MergedSelf(Defaults);
  }

  /** Two leaves of the same kind (both flags, both numbers or both text). */
  predicate SameKind(a: Value, b: Value)
  {
    (a.Flag? && b.Flag?) || (a.Number? && b.Number?) || (a.Text? && b.Text?)
  }

  /** Every key of the defaults is present in `t` with a value of the default's kind. */
  predicate Conforms(t: Table)
  {
    forall g, k | g in Defaults && k in Defaults[g] ::
      g in t && k in t[g] && SameKind(t[g][k], Defaults[g][k])
  }

  /** Overrides that keep the kind of every default key they mention. */
  predicate Compatible(over: Table)
  {
    forall g, k | g in over && k in over[g] && g in Defaults && k in Defaults[g] ::
      SameKind(over[g][k], Defaults[g][k])
  }

  /** Merging compatible overrides into a conforming table keeps it conforming. */
  lemma MergedConforms(base: Table, over: Table)
    requires Conforms(base) && Compatible(over)
    ensures Conforms(Merged(base, over))
  {
    var m := Merged(base, over);
    forall g, k | g in Defaults && k in Defaults[g]
      ensures g in m && k in m[g] && SameKind(m[g][k], Defaults[g][k])
    {
      if g in over && k in over[g] {
        MergedOverrides(base, over, g, k);
      } else {
        MergedKeepsBase(base, over, g, k);
      }
    }
  }

  /** The glyphs of the `icons` group. */
  datatype Icons = Icons(profile: string, posted: string, engaged: string, popular: string,
                         following: string)

  /** The options the content script reads, typed. */
  datatype Config = Config(
    feedFollowed: bool, listFollowed: bool, listReposted: bool, listLiked: bool,
    highlightLists: bool, expandProfiles: bool,
    emojis: bool, compact: bool,
    icons: Icons,
    posted: int, engaged: int, updatedDays: int, createdDays: int)

  function FlagAt(t: Table, g: string, k: string): bool
    requires Conforms(t) && g in Defaults && k in Defaults[g] && Defaults[g][k].Flag?
  {
    t[g][k].on
  }

  function NumberAt(t: Table, g: string, k: string): int
    requires Conforms(t) && g in Defaults && k in Defaults[g] && Defaults[g][k].Number?
  {
    t[g][k].n
  }

  function TextAt(t: Table, g: string, k: string): string
    requires Conforms(t) && g in Defaults && k in Defaults[g] && Defaults[g][k].Text?
  {
    t[g][k].s
  }

  /** The typed view of a conforming options table. */
  function ConfigOf(t: Table): Config
    requires Conforms(t)
  {
    Config(
      FlagAt(t, "process", "feedFollowed"), FlagAt(t, "process", "listFollowed"),
      FlagAt(t, "process", "listReposted"), FlagAt(t, "process", "listLiked"),
      FlagAt(t, "behavior", "highlightLists"), FlagAt(t, "behavior", "expandProfiles"),
      FlagAt(t, "profile", "emojis"), FlagAt(t, "profile", "compact"),
      Icons(TextAt(t, "icons", "profile"), TextAt(t, "icons", "posted"),
            TextAt(t, "icons", "engaged"), TextAt(t, "icons", "popular"),
            TextAt(t, "icons", "following")),
      NumberAt(t, "thresholds", "posted"), NumberAt(t, "thresholds", "engaged"),
      NumberAt(t, "thresholds", "updated"), NumberAt(t, "thresholds", "created"))
  }

  /** The defaults hold every option the content script reads, with the values of the
      `defaults` object: every flag on, the five stock glyphs, thresholds 5, 25, 7 and 14. */
  lemma DefaultConfig()
    ensures Conforms(Defaults)
    ensures ConfigOf(Defaults) == Config(
      true, true, true, true, true, true, true, true,
      Icons("\U{2139}\U{FE0F}", "\U{1F4DD}", "\U{2705}", "\U{1F525}", "\U{1F44D}"),
      5, 25, 7, 14)
  {
    DefaultsConform();
    DefaultFlags();
    DefaultIcons();
    DefaultNumbers();
  }

  lemma DefaultsConform()
    ensures Conforms(Defaults)
  {
  }

  lemma DefaultFlags()
    ensures Conforms(Defaults)
    ensures var c := ConfigOf(Defaults);
      && c.feedFollowed && c.listFollowed && c.listReposted && c.listLiked
      && c.highlightLists && c.expandProfiles && c.emojis && c.compact
  {
    DefaultsConform();
  }

  lemma DefaultIcons()
    ensures Conforms(Defaults)
    ensures ConfigOf(Defaults).icons
      == Icons("\U{2139}\U{FE0F}", "\U{1F4DD}", "\U{2705}", "\U{1F525}", "\U{1F44D}")
  {
    DefaultsConform();
  }

  lemma DefaultNumbers()
    ensures Conforms(Defaults)
    ensures var c := ConfigOf(Defaults);
      c.posted == 5 && c.engaged == 25 && c.updatedDays == 7 && c.createdDays == 14
  {
    DefaultsConform();
  }

  /** The default thresholds are ordered: posted (5) < engaged (25), updated (7) < created (14). */
  lemma DefaultThresholdsOrdered()
    ensures Conforms(Defaults)
    ensures ConfigOf(Defaults).posted < ConfigOf(Defaults).engaged
    ensures ConfigOf(Defaults).updatedDays < ConfigOf(Defaults).createdDays
  {
    DefaultConfig();
  }
}
