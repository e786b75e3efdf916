# Bluesky follower info — a Dafny model of the content script's core

The browser extension annotates profile links on the Bluesky web app with a profile's
description and its post, follower and following counts. It annotates three kinds of link:
starter-pack cards, the entries of an expanded "N people followed you" notification list, and
"followed you" feed items. Counts and descriptions are fetched from the
`app.bsky.actor.getProfile` endpoint. They are cached in the extension's local storage with
a version gate and a 30-day retention. The options page merges the user's overrides into a
default option table.

This project models the decision and bookkeeping layer of the two versions of the content
script and of the options helper. The browser is abstracted away:

- the DOM facts the classifier reads are an input record;
- `chrome.storage.local` is a map;
- `Date.now()` is a parameter `now`;
- the API's answer is an input.

Each module follows one part of the program:

| module | file | models |
|---|---|---|
| `Common` | common.dfy | `isOlderThan`, JavaScript's whitespace class, `startsWith`, `includes`, `trim` |
| `Options` | options.dfy | the `defaults` table; `mergeOptions`, which updates an object in place; `clone`; `loadOptions`; the typed view of the options that the content script reads |
| `Store` | store.dfy | `Storage`: a class over a map, with `init` (version gate and retention sweep), `get`, `set` and `remove` |
| `Api` | api.dfy | the path joining of `Api.call` and its reaction to successive replies |
| `I18n` | i18n.dfy | the phrase table; `getLang` (region dropped, fallback) and the older exact-language lookup |
| `Description` | description.dfy | the description chain of `renderContent` over a token model of its output |
| `Render` | render.dfy | `makeEmojis`, the count lines, the rendering of a profile, the list toggle, and the older icons |
| `Profiles` | profile.dfy | the `Profile` class (age tests, `load`, `save`, `fetch`, `show`) and `Profile.pool` |
| `Classifier` | classifier.dfy | `getContentModel`, with pass 1's marks written to a `Group` object |
| `Handlers` | handlers.dfy | `onProfileLinkRevealed` and `onFollowButtonRendered` |
| `Legacy` | legacy.dfy | the older script: `getTargetModel`, its `Profile`, `renderData`, `processElement` |

Every stateful handler is a method that is proved against a pure function of the stored
record and the API's answer (`RevealSpec`, `FollowSpec`, `RenderDataSpec`). The properties of
the program are stated as lemmas about those functions. Several lemmas relate the two
versions of the script to each other.

Behaviours of the code worth noting:

- The token refresh in `Api.call` is retried with no bound, not once: `Api.CallSkipsExpired`.
- `isOld` in the current script is gated on `created` but measured from `updated`:
  `Profiles.IsOldIgnoresCreatedAge`.
- The "could not load" rendering is never produced by the handlers. A `null` reply makes
  `fetch` throw, which ends the handler before any rendering without data:
  `Handlers.RevealNeverFails` and `Legacy.RenderDataNeverFails`.
- The older `processElement` does not mark a link whose classification throws. The throw
  only rejects the promise of `processElement`, and the visibility observer stops watching
  the link anyway. The link is looked at again only if it, or a node holding it, is added
  to the page again, since the link still matches the unprocessed-link selector:
  `Legacy.ProcessElement`.

## Model

| member | source | states |
|---|---|---|
| Common.OlderStaysOlder | src/content/content.js:20-24 | a timestamp older than the window at one moment stays older at every later moment |
| Common.TrimStart | src/content/content.js:631 | what is dropped is a blank prefix, and the rest starts with a non-blank element |
| Common.TrimEnd | src/content/content.js:631 | what is dropped is a blank suffix, and the rest ends with a non-blank element |
| Common.TrimIdempotent | src/content/content.js:640 | trimming twice is trimming once |
| Common.ContainsAtIndex | src/content/content.js:122 | an occurrence at any position makes `includes` true |
| Common.ContainsExtend | src/content/content.js:122 | appending text keeps every occurrence |
| Options.MergedOverrides | src/options/options.js:40-50 | after the merge, every group and key of the overrides holds the override's value |
| Options.MergedKeepsBase | src/options/options.js:40-50 | a key of the base that the overrides lack keeps its value |
| Options.MergedKeys | src/options/options.js:40-50 | a merged group holds exactly the keys of the base group and of the override group |
| Options.MergedNewGroup | src/options/options.js:42-44 | a group missing from the base is created, holding exactly the override's keys |
| Options.MergedEmpty | src/options/options.js:40-50 | merging `{}` returns the base unchanged |
| Options.MergedIdempotent | src/options/options.js:40-50 | merging the same overrides twice equals merging them once |
| Options.MergedSelf | src/options/options.js:40-50 | merging a table into itself changes nothing |
| Options.MergedStep | src/options/options.js:41-48 | folding in one more override group updates that group alone |
| Options.Settings.Clone | src/options/options.js:52-56 | the clone holds a value equal to the original |
| Options.Settings.Merge | src/options/options.js:40-50 | the nested loops leave the object equal to the merge of its old value and the overrides |
| Options.Settings.AssignGroup | src/options/options.js:42-47 | a missing group is created, then every key of the override group is assigned; other groups are unchanged |
| Options.LoadOptions | src/options/options.js:31-34 | a fresh object holding the defaults merged with the stored overrides (or with the defaults when nothing is stored) |
| Options.LoadNothingStored | src/options/options.js:31-34 | with nothing stored, the loaded options equal the defaults |
| Options.DefaultConfig | src/options/options.js:1-29 | the defaults hold every option the content script reads; read as a configuration they are every flag on, the glyphs ℹ️ 📝 ✅ 🔥 👍, and the thresholds posted 5, engaged 25, updated 7, created 14 |
| Options.MergedConforms | src/options/options.js:40-50 | overrides whose values have the defaults' kinds keep the merge conforming |
| Options.DefaultThresholdsOrdered | src/options/options.js:23-28 | by default posted (5) < engaged (25) and updated (7) < created (14) |
| Store.ProfileKeyDistinct | src/content/content.js:195-197 | profile keys are injective in the handle and never collide with `version` or `options` |
| Store.CollectExpired | src/content/content.js:50-57 | the collected keys are exactly the stored keys whose record is expired, each listed once |
| Store.SweepExactly | src/content/content.js:49-61 | the sweep removes exactly the expired records, and every other key keeps its value |
| Store.SweepIdempotent | src/content/content.js:49-61 | sweeping twice at the same moment is sweeping once |
| Store.InitializedIdempotent | src/content/content.js:41-62 | after `init` the stored version is the running one, and a second `init` changes nothing |
| Store.RetentionBoundary | src/content/content.js:53 | a record created 31 days ago is purged and one created 29 days ago is kept |
| Store.VariantSwitchWipes | content.js:43 | a store last initialised by one version of the script keeps only the version entry under the other |
| Store.WipeResetsOptions | src/content/content.js:43-47 | a version mismatch also wipes the stored options, so the defaults apply |
| Store.Storage.constructor | src/content/content.js:37-39 | the store holds the given version and items |
| Store.Storage.Get | src/content/content.js:65-68 | a missing key reads as `{}` |
| Store.Storage.Set | src/content/content.js:70-72 | only the given key changes |
| Store.Storage.Remove | src/content/content.js:74-76 | exactly the given keys are removed |
| Store.Storage.Clear | src/content/content.js:44 | the store is emptied |
| Store.Storage.Init | src/content/content.js:41-62 | on a version mismatch only the new version remains; otherwise the store is swept |
| Api.FullPath | src/content/content.js:119-123 | the path is kept, and it changes only for a GET with data |
| Api.FullPathQuery | src/content/content.js:120-123 | a GET with data appends `&` when the path has a `?` and `?` otherwise, followed by the whole query |
| Api.CallSkipsExpired | src/content/content.js:130-136 | any number of expired-token replies is retried through |
| Api.CallNull | src/content/content.js:128-145 | after the retries, a failed reply gives `null`, and only an ok reply gives a body |
| I18n.LangCode | src/content/content.js:337-338 | the language code is the locale's prefix before its first `-` |
| I18n.LangCodeDropsRegion | src/content/content.js:336-340 | a region suffix is dropped |
| I18n.GetLangWithRegion | src/content/content.js:336-340 | a supported code with any region finds its table |
| I18n.GetLangUnsupported | src/content/content.js:336-340 | an unsupported language finds no table without a fallback and the English table with `en` |
| I18n.RegionOnlyInCurrent | content.js:294-295 | `en-US` is unsupported by the exact lookup but English to the newer one |
| Description.SchemeLength | src/content/content.js:638 | 8 iff the text starts with `https://`, 7 iff it starts with `http://`, 0 iff it starts with neither |
| Description.NonSpaceRun | src/content/content.js:638 | the longest non-blank prefix, which is all non-blank and followed by a blank or the end |
| Description.UrlAtMatches | src/content/content.js:638 | a match starts exactly where a scheme is followed by a non-blank character; it runs to the next blank or the end, and its captured text is what follows the scheme, less a `www.` that has more text after it |
| Description.RewritePlain | src/content/content.js:638 | text without a scheme is left as it is |
| Description.RewriteUrl | src/content/content.js:638 | a URL followed by a blank or the end is replaced whole: it loses its scheme, a leading `www.` with more text after it and one trailing `/`, gets the bolt prefix when emoji are on, and the rewrite goes on with the text after it |
| Description.RewriteAppend | src/content/content.js:638 | the rewrite of text without a scheme followed by more text is that text followed by the rewrite of the rest |
| Description.NoSchemeAtStart | src/content/content.js:638 | text that contains no scheme has none at its start either |
| Description.NoPrefixAcross | src/content/content.js:638 | when neither part contains a pattern, the pattern at the start of the join lies across the boundary |
| Description.RewriteNoMatch | src/content/content.js:638 | a character where no URL starts is copied through |
| Description.CharsCons | src/content/content.js:638 | the tokens of a string are those of its first character followed by those of the rest |
| Description.Split | src/content/content.js:639 | there is always at least one segment |
| Description.SplitPieces | src/content/content.js:639 | no segment contains a separator |
| Description.SplitKeepsText | src/content/content.js:639 | the segments joined back together are the text with its separators removed |
| Description.FlattenCons | src/content/content.js:639 | joining segments puts the first segment before the rest |
| Description.UnseparatedPlain | src/content/content.js:639 | text without separators is kept whole |
| Description.SplitPlain | src/content/content.js:639 | text without separators is one segment |
| Description.SplitRun | src/content/content.js:639 | a run of separators at the start, of any length, yields one empty segment before the segments of the rest |
| Description.SplitCut | src/content/content.js:639 | a run of separators between two texts cuts there and only there: the segments are those of the first text followed by those of the second |
| Description.SplitFrom | src/content/content.js:639 | every token of a segment comes from the text |
| Description.CleanDropsBullet | src/content/content.js:640 | a segment starting with `- ` becomes what follows the bullet, trimmed |
| Description.CleanNoBullet | src/content/content.js:640 | a segment not starting with `- ` is only trimmed |
| Description.TrimLine | src/content/content.js:640 | the trimmed segment is part of the segment, with non-blank ends |
| Description.StripEmoji | src/content/content.js:26-29 | no emoji remains and nothing is added; a single token is kept iff it is not an emoji, and an emoji with its modifier is removed as a whole |
| Description.StripEmojiAppend | src/content/content.js:26-29 | emoji are removed one by one: stripping two texts joined is stripping each, unless the second starts with a modifier |
| Description.StripEmojiPlain | src/content/content.js:26-29 | a segment without emoji is left as it is |
| Description.RemoveJoiners | src/content/content.js:30 | no zero-width joiner remains and nothing else is added; a text without joiners is kept as it is |
| Description.RemoveJoinersAppend | src/content/content.js:30 | joiners are removed one by one: removing them from two texts joined is removing them from each |
| Description.Clean | src/content/content.js:640-641 | the cleaned segment has non-blank ends, tokens from the segment (or a space), and, when stripping, no emoji or joiner |
| Description.DropEmpty | src/content/content.js:642 | every kept segment is non-empty and comes from the input, none are added, and with no empty segment nothing is dropped |
| Description.DropEmptyAppend | src/content/content.js:642 | segments are filtered one by one: filtering two lists joined is filtering each, and a single segment is kept iff it is non-empty |
| Description.CleanNoSeparator | src/content/content.js:640-641 | cleaning never introduces a separator |
| Description.CondenseSegments | src/content/content.js:630-645 | each output segment is non-empty, separator-free and trimmed, and emoji-free when stripping |
| Description.CleanPlain | src/content/content.js:640-641 | a trimmed segment without a leading `- ` is left as it is when emoji are kept |
| Description.CondensePlain | src/content/content.js:630-645 | a one-line description with no URL, separator or dash bullet is kept as one segment |
| Description.CondenseTrimmed | src/content/content.js:631 | an already trimmed description goes into the chain unchanged |
| Description.PlainPieces | src/content/content.js:639-642 | a plain trimmed segment survives cleaning and dropping |
| Description.TrimmedAlready | src/content/content.js:631 | a description with non-blank ends is its own trim |
| Description.PlainSegment | src/content/content.js:640 | a plain segment is not changed by the dash strip or the trim |
| Description.CondenseTwo | src/content/content.js:630-642 | two plain texts joined by one separator condense to exactly those two segments, in order |
| Description.TwoPieces | src/content/content.js:639-642 | two plain segments around a separator survive the split, the clean-up and the filter unchanged |
| Description.CondenseNoUrl | src/content/content.js:631-638 | a trimmed description without a scheme goes into the split as it is |
| Description.RewriteEmojiFree | src/content/content.js:638 | with the bolt off, the rewrite of a text without emoji or joiners holds none |
| Description.CleanStripPlain | src/content/content.js:640-641 | on a segment without emoji or joiners the stripping clean-up equals the plain one |
| Description.CondenseStripKeepsText | src/content/content.js:630-642 | a description without emoji or joiners condenses the same whether emoji are stripped or not (bolt off) |
| Render.PostsIconCases | src/content/content.js:510-514 | engaged iff posts ≥ engaged threshold; posted iff posted threshold < posts < engaged threshold; otherwise none |
| Render.PostsIconMonotone | src/content/content.js:510-514 | more posts never lower the posts icon |
| Render.EmojisCases | src/content/content.js:504-522 | profile icon iff the description is non-empty, popular iff followers > following, following icon iff following, and a posts icon iff either threshold is passed |
| Render.RenderCard | src/content/content.js:620-663 | loaded data renders the condensed description (dimmed iff old, compact as the option says) and three count lines in order, each with its slot's icon from `makeEmojis`, the label of the page language, its count and its separator |
| Render.RenderStripsEmoji | src/content/content.js:630-645 | every description segment is non-empty, trimmed and separator-free; with emoji off none holds an emoji or a joiner |
| Render.RenderKeepsPlainText | src/content/content.js:634-642 | with emoji off, a description without emoji is shown as the plain condensation: stripping removes nothing |
| Render.CountLabelsFallback | src/content/content.js:648 | on an unsupported page language the count labels are English |
| Render.ToggleStates | src/content/content.js:670-687 | expanded shows "Hide" and no icon summary; collapsed shows "Show" and all four icon slots |
| Render.LegacyEmojisAsCurrent | content.js:553-563 | the older icons are the newer ones under thresholds 1 and 25, without the description icon |
| Render.LegacyPostedDiffers | content.js:556-560 | under the default thresholds the older posts icon differs exactly for 2 to 5 posts |
| Render.LegacyDescriptionAsCurrent | content.js:538-550 | the older description chain is the newer one with emoji on |
| Profiles.IsStaleExactly | src/content/content.js:199-201 | stale iff there is data, `updated` is set and now > updated + threshold days; never stale when `updated` is unset |
| Profiles.IsOldIgnoresCreatedAge | src/content/content.js:203-205 | `created` only gates the test; the age is measured from `updated` against the created threshold |
| Profiles.OldImpliesStale | src/content/content.js:199-205 | when the updated window is no longer than the created window, an old profile is stale |
| Profiles.SavedRecord | src/content/content.js:233-243 | `created` is kept when set and is now otherwise; `updated` is now; the visibility and data are the current ones |
| Profiles.SaveKeepsCreated | src/content/content.js:236 | once saved, the creation time survives every later save |
| Profiles.Profile.constructor | src/content/content.js:217-220 | a new profile is visible as `expandProfiles` says and has nothing loaded |
| Profiles.Profile.Load | src/content/content.js:222-231 | the timestamps and data always come from the store; the visibility only when the record has one |
| Profiles.Profile.Save | src/content/content.js:233-243 | only the profile's key changes, to the saved record |
| Profiles.Profile.Fetch | src/content/content.js:245-263 | loads first when `created` is unset; a reply body replaces the data, anything else keeps it and reports failure |
| Profiles.Profile.Show | src/content/content.js:265-268 | sets the visibility and saves it, with nothing else changed |
| Profiles.ProfilePool.Get | src/content/content.js:209-215 | returns the pooled instance for the handle, never replacing an entry, or pools a fresh one |
| Profiles.GetTwice | src/content/content.js:209-215 | two calls for one handle give the same instance, and the pool gains at most that handle |
| Classifier.MarkSummary | src/content/content.js:416-440 | pass 1 removes the test id; on an untouched group it marks the list, and marks the container iff the category is enabled |
| Classifier.Classify | src/content/content.js:369-494 | a model is always for the link's own handle |
| Classifier.GetContentModel | src/content/content.js:369-494 | returns the classification; a summary's group gets pass 1's marks and no other group changes |
| Classifier.NoTableNoModel | src/content/content.js:371-374 | without a phrase table nothing is classified and no group is marked |
| Classifier.StarterFirst | src/content/content.js:392-405 | a starter card is classified as such whatever else holds |
| Classifier.SummaryNeverAnnotated | src/content/content.js:416-441 | a summary link is never annotated |
| Classifier.ListNeedsPass1 | src/content/content.js:445-466 | a list model needs a marked list, a marked container and the hide-list control |
| Classifier.FeedNeedsOption | src/content/content.js:480 | with feed processing off nothing is classified as feed |
| Classifier.Pass1Once | src/content/content.js:417-420 | after pass 1 a group is no longer found by its test id, so later summary links change nothing |
| Classifier.Pass1ThenPass2 | src/content/content.js:416-466 | from an untouched group, a list link is annotated iff its category is enabled and the hide-list control is present, and gets no model otherwise; `no-highlight` is set iff processed and highlighting is off |
| Handlers.OnProfileLinkRevealed | src/content/content.js:722-762 | the link is always marked and a summary's group gets pass 1's marks (its hide-list flag kept); a list group is unchanged; without a model the store and the pool are unchanged; with one, the renderings, the stored record and the visibility are those of `RevealSpec`; every other pooled profile is unchanged |
| Handlers.Mark | src/content/content.js:722-727 | classifies the link, writing pass 1's marks to a summary's group, and marks it processed |
| Handlers.Serve | src/content/content.js:729-759 | presents the handle's pooled profile as `RevealSpec` describes, and no other pooled profile changes |
| Handlers.Present | src/content/content.js:735-759 | load, render, fetch when needed, and save, as `RevealSpec` describes |
| Handlers.FreshCacheShownOnce | src/content/content.js:741-746 | fresh cached data is rendered once, and nothing is fetched or saved |
| Handlers.NothingCached | src/content/content.js:744-758 | with nothing cached, a failed fetch shows nothing; a successful one shows and saves the fetched data once |
| Handlers.RefreshSaves | src/content/content.js:746-757 | a refresh keeps or starts the creation time, stamps updated now, and renders the fetched counts |
| Handlers.FirstSightOfFollowedCollapses | src/content/content.js:750-753 | a followed profile is collapsed iff it had no creation time |
| Handlers.RevealNeverFails | src/content/content.js:741-758 | the handler never renders the error state |
| Handlers.RefreshedStillDim | src/content/content.js:743-757 | a refresh of an old record is still rendered dimmed, because `save` leaves the in-memory timestamps as they were |
| Handlers.FollowActionCases | src/content/content.js:774-779 | "Following" means follow and "Follow" means unfollow, in each language |
| Handlers.ApplyFollow | src/content/content.js:784-796 | `following` iff the action is follow; the other counts and the description are unchanged |
| Handlers.FollowIdempotent | src/content/content.js:786-790 | follow adds one follower unless already following, and a second follow changes nothing |
| Handlers.FollowThenUnfollow | src/content/content.js:784-796 | follow then unfollow of a profile not followed restores its data |
| Handlers.UnfollowAlwaysDecrements | src/content/content.js:791 | unfollow always removes one follower, so two unfollows remove two |
| Handlers.FollowSpecEffect | src/content/content.js:770-809 | a recognised click with a reply saves and shows the corrected counts, with the following icon iff the action is follow; otherwise nothing changes |
| Handlers.Click | src/content/content.js:781-805 | load, fetch, correct the counts, save and render, as `ClickSpec` describes |
| Handlers.OnFollowButtonRendered | src/content/content.js:770-809 | the rendering, the stored record and the pool's handles are those of `FollowSpec`; every other pooled profile is unchanged |
| Legacy.MarkSummary | content.js:340-349 | the older pass 1 removes the test id and marks the list and the container together |
| Legacy.Classify | content.js:292-399 | a model is always for the link's own handle |
| Legacy.PairedNeverThrows | content.js:340-362 | the older pass 1 never leaves a list without its container, so the older pass 2 never throws on its own marks |
| Legacy.ExcludedListThrowsHere | content.js:353-362 | on the newer marks of a disabled category the older classifier throws, where the newer one returns nothing |
| Legacy.LegacyLangIsCurrent | content.js:294-295 | a language known to the exact lookup gets the same table from the newer lookup |
| Legacy.ClassifyAsCurrent | content.js:292-399 | with every category and feed items enabled, the two classifiers agree on marks the older pass 1 made |
| Legacy.GetTargetModel | content.js:292-399 | returns the classification; a summary's group gets the older pass 1's marks |
| Legacy.AgesAsCurrent | content.js:187-193 | the fixed 7 and 14 days agree with the newer tests under those settings, apart from the newer `created` gate |
| Legacy.SavedRecord | content.js:207-216 | `created` is kept or now, `updated` is now, and no visibility is stored |
| Legacy.Profile.constructor | content.js:195-197 | a new profile has nothing loaded |
| Legacy.Profile.Load | content.js:199-205 | the timestamps and data always come from the store |
| Legacy.Profile.Save | content.js:207-216 | only the profile's key changes |
| Legacy.Profile.Fetch | content.js:218-229 | no load first; a reply body replaces the data, anything else keeps it |
| Legacy.RenderData | content.js:499-517 | renders and saves as `RenderDataSpec` describes |
| Legacy.ProcessElement | content.js:402-415 | the link is marked unless classification throws; a summary's group gets the older pass 1's marks and a list group is unchanged; a found model is rendered as `RenderDataSpec` describes |
| Legacy.RenderDataAsCurrent | content.js:499-517 | with a 7-day setting, the older and newer handlers make as many renderings and save the same records, apart from the visibility |
| Legacy.RenderDataNeverFails | content.js:525-581 | the older handler never renders the error state |

## Left out

- DOM construction (`buildElements`, the HTML and SVG strings, `innerHTML`): a rendering is
  the value that determines the markup. The text is not HTML-escaped.
- The observers (`observeProfileLinks`, `observeFollowButtons`, `setupPage`), the 1-second
  start-up retry and the 200 ms list-height adjustment: these are scheduling and layout.
- `fetch`, JSON decoding and `URLSearchParams`: the encoded query is an input to `Api.FullPath`
  and the replies are an input to `Api.Call`. `Api.init` and the message relay are not part of
  this model.
- `Intl.NumberFormat`: counts are kept as numbers.
- Parsing the handle out of `href`: the handle is an input. The regular expression that
  fails on a link without `profile/` is therefore not modelled, and neither is a missing
  aria-label on the summary's description element. Both throw in the source.
- `Profile.mute` in both scripts: it has no caller in the core, and its effect is an API post
  followed by `Storage.remove`, which is `Store.Storage.Remove`.
- Each handler runs against one `now` and one API answer. The source reads the clock at
  every call and can interleave other handlers between its awaits.
- `Classifier.Group`: pass 1 marks the summary's own group only. A container that `closest`
  would find further up the tree, past a group whose test id is gone, is not modelled.
- The older phrase table has only the `aria` fields. The model reuses the newer table for it,
  and the fields it uses have the same phrases.
- Handlers.RevealSpec: the toggle's click handler is not modelled as an event. Its effect is
  `Profiles.Profile.Show`, and its display is `Render.ToggleOf`.
- Description.Split: its own contract says only that there is at least one segment. Where
  the cuts fall is stated by `SplitRun` and `SplitCut`, and what the segments hold by
  `SplitPieces`, `SplitKeepsText` and `SplitFrom`.
- Description.Clean: its own contract states the shape of a cleaned segment. The dash strip
  and the kept text are stated by `CleanDropsBullet`, `CleanNoBullet`, `CleanPlain` and
  `CleanStripPlain`.
- Description.CondenseSegments: states the shape of every segment, not its content. The
  content is stated step by step (`RewriteUrl`, `SplitCut`, the append lemmas,
  `CleanDropsBullet`) and for whole descriptions in the cases of `CondensePlain`,
  `CondenseTwo` and `CondenseStripKeepsText`.
- The glyph and the hover title of each icon (`makeIcon`, the `icons` options, the older
  fixed glyphs): a rendering names the icon slot, not the character drawn.
- The request URL `${url}xrpc/…` of `Api.call`: only the path joining (`Api.FullPath`) is
  modelled; the service URL is configuration.
