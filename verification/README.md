# WildfireWatch-AI dashboard: a Dafny model of the page logic

WildfireWatch-AI is a React dashboard for wildfire risk in Canadian zones. This project
models the logic its pages compute, leaving out the rendering:

- **Zones** (`zones.dfy`, module `Zones`):
  - the score-to-level classification;
  - the add-zone form's guard and the record it appends;
  - the risk-ordered list the page renders;
  - the small risk ring's percentage.
- **Dashboard** (`dashboard.dfy`, module `Dashboard`):
  - the `stats` object: level counts, the rounded mean risk, the three mock "recent alerts" and the four highest-risk zones;
  - the large risk ring's percentage.
- **Risk map** (`risk_map.dfy`, module `RiskMap`):
  - the integer and threshold parts of the mock data layers: air quality, vegetation labels, hotspots, past-fire footprints and the 24-hour prediction;
  - which zone is selected;
  - the per-zone filters;
  - the five-row hotspot card.
- **Alerts** (`alerts.dfy`, module `Alerts`):
  - the recipient manager, with its two browser-storage keys, `loadJSON`/`saveJSON` and first-use seeding;
  - remove, activate and deactivate, create and edit, with the history entry every save prepends;
  - the newest-first display copies;
  - the severity colour and threshold label.
- **Layout** (`layout.dfy`, module `Layout`): `createPageUrl`, the seven navigation items, the active-item test and `cn`.

Four shared modules support them:

- `Wrappers`: `Option`.
- `Numeric`: `clamp`, and `Math.round` of a quotient.
- `Strings`: decimal rendering of naturals, `join`/`split`, and JavaScript `trim`.
- `Sorting`: `Array.prototype.sort` with an integer key, largest first. The sort is stable, as the language requires.

Modelling choices:

- **Randomness and time are parameters.** Every `Math.random()` draw enters as the integer the page rounds it to (`roll`, `rawAqi`, `delta`, `rawConfidence`). `Date.now()` enters as `now`, and `uid()` results enter as `ids`.
- **Missing risk.** A zone's `risk` is `Option<int>`. `z.risk || 0` reads a missing risk as 0. Every comparison `z.risk >= t` is false without a risk. In the risk map's arithmetic, a missing risk produces NaN, which is modelled as `None`.
- **Loose JavaScript objects.** Recipients are plain objects built by spreading (`{ ...c, ...data }`), so each content field is optional. An edit may also overwrite `id` and `created_date`, because the edit form starts from the edited record.

## Model

| member | source | states |
|---|---|---|
| Numeric.Clamp | src/pages/RiskMap.jsx:30-32 | the result lies in the range when it is non-empty, equals the input inside it, the nearer bound outside it, and the lower bound when the range is empty |
| Numeric.ClampMonotone | src/pages/RiskMap.jsx:30-32 | clamping preserves the order of two inputs |
| Numeric.RoundHalfUp | src/pages/Dashboard.jsx:83-85 | the rounded quotient r satisfies r - 1/2 <= num/den < r + 1/2, the half-up rounding of `Math.round` |
| Numeric.RoundedMeanBounds | src/pages/Dashboard.jsx:83-85 | the rounded mean of values in [lo, hi] stays in [lo, hi] |
| Strings.ParseNatToString | src/pages/Dashboard.jsx:92 | reading back the decimal text of a number gives the number |
| Strings.NatToStringInjective | src/pages/RiskMap.jsx:61 | different numbers render as different decimal text |
| Strings.DashDigitsUnique | src/pages/Dashboard.jsx:92 | a prefix ending in '-' followed by digits splits in only one way |
| Strings.NumberedIdUnique | src/pages/Dashboard.jsx:92 | an id `${prefix}-${n}` determines its prefix and its number |
| Strings.SplitJoin | src/components/Layout.jsx:14-16 | splitting a join on a separator that occurs in no part gives the parts back |
| Strings.SplitNoSeparator | src/components/Layout.jsx:14-16 | a string without the separator splits into itself |
| Strings.SplitAtSeparator | src/components/Layout.jsx:14-16 | splitting at the first separator takes off the first piece |
| Strings.Trim | src/pages/Zones.jsx:101 | the trimmed name is a contiguous slice of the input whose dropped prefix and suffix are all whitespace, has no whitespace at either end, and is empty exactly when the input is all whitespace |
| Strings.TrimIdempotent | src/pages/Zones.jsx:114 | trimming twice is trimming once |
| Sorting.Insert | src/pages/Zones.jsx:87 | inserting into a descending list keeps it descending and adds exactly the one element |
| Sorting.SortDesc | src/pages/Zones.jsx:87 | the sorted copy is in descending key order and a permutation of the input |
| Sorting.SortStable | src/pages/Alerts.jsx:344-349 | elements with equal keys keep their input order, as `Array.prototype.sort` guarantees |
| Sorting.SortAscendingReverses | src/pages/Alerts.jsx:347-349 | a list in strictly ascending key order comes out reversed |
| Sorting.Take | src/pages/Dashboard.jsx:94 | `slice(0, n)` keeps the first min(n, length) elements |
| Sorting.TopOfSorted | src/pages/Dashboard.jsx:101-104 | the first n of the sorted copy are the n largest: descending, drawn from the input, and no left-out element has a larger key |
| Zones.ScoreToLevel | src/pages/Zones.jsx:16-21 | a score is Extreme exactly from 80, High exactly in [60, 80), Moderate exactly in [35, 60), Low exactly below 35 |
| Zones.ScoreToLevelBands | src/pages/Zones.jsx:16-21 | a score reaches a level or higher exactly when it reaches that level's lowest score |
| Zones.ScoreToLevelMonotone | src/pages/Zones.jsx:16-21 | a higher score never gets a lower level |
| Zones.MiniRingPercent | src/pages/Zones.jsx:30-34 | the mini ring's percentage is in [0, 100], equals an in-range score, and is NaN exactly when the score is missing |
| Zones.PseudoRisk | src/pages/Zones.jsx:104-107 | a new zone's risk is always in [5, 95] and equals the draw when the draw is in range |
| Zones.AddZone | src/pages/Zones.jsx:97-121 | a blank name or a NaN coordinate leaves the list unchanged; otherwise exactly one zone is appended: id from the clock, trimmed non-blank name, parsed coordinates, risk equal to the draw clamped to [5, 95], level that risk's classification, and the slider radius |
| Zones.DecorateAll | src/pages/Zones.jsx:79-86 | one decorated row per zone, in order |
| Zones.Derived | src/pages/Zones.jsx:78-88 | the rendered list has one row per zone, ordered by risk (missing as 0) from highest |
| Zones.DecorateAllCount | src/pages/Zones.jsx:79-86 | each zone occurs decorated as many times as it occurs in the input |
| Zones.DerivedIsPermutation | src/pages/Zones.jsx:78-88 | the rendered list is a permutation of the decorated zones, and every row shows its own level's placeholder conditions |
| Zones.DerivedKeepsTies | src/pages/Zones.jsx:87 | zones with equal risk keep their input order in the rendered list |
| Dashboard.CountLevel | src/pages/Dashboard.jsx:81-82 | a level count is the number of zones whose level is exactly that level (its multiplicity among the zones' levels), so never more than the zone count |
| Dashboard.CountLevelConcat | src/pages/Dashboard.jsx:81-82 | counting distributes over concatenation, and a single zone counts 1 for its own level and 0 for any other |
| Dashboard.Average | src/pages/Dashboard.jsx:83-85 | the mean is 0 for no zones, otherwise the risk sum divided by the count, rounded half up |
| Dashboard.RecentAlerts | src/pages/Dashboard.jsx:88-99 | up to three alerts, the i-th built from the i-th highest-risk zone with id `${id}-${i}`, fixed time and i + 2 notified |
| Dashboard.ComputeStats | src/pages/Dashboard.jsx:79-107 | `monitored` is the zone count; `extreme` and `high` are the numbers of zones at exactly those levels, together never more than `monitored`; `avg`, `recentAlerts` and `highest` are the mean, mock alerts and top cards described by their own rows |
| Dashboard.CountsPartition | src/pages/Dashboard.jsx:80-82 | the four level counts add up to the number of zones |
| Dashboard.CountsBounded | src/pages/Dashboard.jsx:80-82 | the Extreme and High counts together never exceed the zone count |
| Dashboard.AverageBounds | src/pages/Dashboard.jsx:83-85 | with every risk in [0, 100], the mean shown is in [0, 100] |
| Dashboard.RiskSumBounds | src/pages/Dashboard.jsx:84 | with every risk in [0, 100], the sum lies between 0 and 100 times the count |
| Dashboard.HighestAreTop | src/pages/Dashboard.jsx:101-104 | the cards show min(4, n) zones, highest risk first, drawn from the input, with no left-out zone riskier than a shown one |
| Dashboard.RecentAlertsFollowHighest | src/pages/Dashboard.jsx:88-104 | the mock alerts name the first three highest-risk cards in the same order |
| Dashboard.RecentAlertIdsDistinct | src/pages/Dashboard.jsx:92 | the mock alert ids are pairwise distinct even when zone ids repeat |
| Dashboard.RingPercent | src/pages/Dashboard.jsx:27-31 | the ring percentage is in [0, 100], equals an in-range value, and is 0 for a missing risk (the prop default) |
| RiskMap.AirQualityOf | src/pages/RiskMap.jsx:37-45 | the AQI is present exactly when the risk is, and is then the draw clamped to [0, 500]; the advisory is the one for the zone's risk band |
| RiskMap.HotspotCount | src/pages/RiskMap.jsx:59 | a zone gets 5 hotspots exactly when its risk is at least 80, 3 exactly when it is in [60, 80), and 1 otherwise (a missing risk included) |
| RiskMap.HotspotsOf | src/pages/RiskMap.jsx:58-67 | a zone's hotspots are numbered 0 to n - 1 with ids `${zoneId}-hs-${i}` |
| RiskMap.HotspotsShape | src/pages/RiskMap.jsx:58-67 | there are as many hotspots as the per-zone counts add up to, each named after and owned by a zone of the input |
| RiskMap.HotspotIdUnique | src/pages/RiskMap.jsx:61 | a hotspot id determines its zone id and its number |
| RiskMap.HotspotIdsDistinct | src/pages/RiskMap.jsx:58-67 | with distinct zone ids, all hotspot ids on the map are distinct |
| RiskMap.PastFireOf | src/pages/RiskMap.jsx:72-82 | a footprint belongs to its zone, dates from 2023 and has 8000 + 260 × risk acres, at least 22300 |
| RiskMap.PredictionOf | src/pages/RiskMap.jsx:85-100 | the 24-hour score is present exactly when the risk is, and is then risk + delta clamped to [1, 99]; confidence is the draw clamped to [60, 95]; the lead driver follows the risk band |
| RiskMap.LabelsFollowLevels | src/pages/RiskMap.jsx:41-54 | the advisory, vegetation and lead-driver labels switch at the same scores as the Extreme and High levels |
| RiskMap.BuildLayerData | src/pages/RiskMap.jsx:35-103 | one air-quality, vegetation and prediction entry per zone, in order; the hotspots and past fires of all zones |
| RiskMap.FindZone | src/pages/RiskMap.jsx:134 | the index found is the first zone with the id, and none is found exactly when no zone has it |
| RiskMap.Selected | src/pages/RiskMap.jsx:134 | the selection is the zone at the first index holding the chosen id when there is one, otherwise the first zone, and nothing only for an empty list |
| RiskMap.HotspotsFor | src/pages/RiskMap.jsx:139 | the filter keeps exactly the hotspots of the given zone |
| RiskMap.PastFiresFor | src/pages/RiskMap.jsx:140 | the filter keeps exactly the footprints of the given zone |
| RiskMap.HotspotsForZone | src/pages/RiskMap.jsx:133-139 | with distinct zone ids, the selected zone's hotspots are exactly its own numbered hotspots |
| RiskMap.HotspotsForConcat | src/pages/RiskMap.jsx:139 | filtering distributes over concatenation |
| RiskMap.HotspotsForOwn | src/pages/RiskMap.jsx:139 | filtering hotspots that all belong to the zone keeps them all |
| RiskMap.HotspotsForNone | src/pages/RiskMap.jsx:139 | filtering hotspots of other zones yields nothing |
| RiskMap.PastFiresForZone | src/pages/RiskMap.jsx:70-82 | with distinct zone ids, a zone has one footprint exactly when its risk is at least 55, and none otherwise |
| RiskMap.PastFiresOwners | src/pages/RiskMap.jsx:70-74 | every footprint belongs to a zone of the input |
| RiskMap.PastFiresForConcat | src/pages/RiskMap.jsx:140 | filtering footprints distributes over concatenation |
| RiskMap.PastFiresForNone | src/pages/RiskMap.jsx:140 | filtering footprints of other zones yields nothing |
| RiskMap.HotspotPanelOf | src/pages/RiskMap.jsx:374-394 | the card shows the first min(5, n) hotspots, and a "+k more" note exactly when n > 5, with shown + k = n |
| RiskMap.PanelNeverTruncates | src/pages/RiskMap.jsx:374-394 | with distinct zone ids the "+k more" note never appears |
| Layout.CreatePageUrl | src/components/Layout.jsx:18-21 | the dashboard maps to "/" and every other page to "/" followed by its name |
| Layout.CreatePageUrlCollision | src/components/Layout.jsx:18-21 | two different page names share a URL only when one is "Dashboard" and the other is empty |
| Layout.NavItemsDistinct | src/components/Layout.jsx:24-32 | the seven items name seven different pages with seven different URLs |
| Layout.ActiveItems | src/components/Layout.jsx:59 | an item is highlighted exactly when its page is the current page |
| Layout.AtMostOneActive | src/components/Layout.jsx:59 | at most one item is highlighted, and exactly one when the current page is in the menu |
| Layout.Truthy | src/components/Layout.jsx:15 | `filter(Boolean)` keeps exactly the non-empty strings and nothing else |
| Layout.TruthyConcat | src/components/Layout.jsx:15 | filtering goes argument by argument and keeps order: the survivors of `a + b` are those of `a` followed by those of `b`, and one argument survives exactly when it is a non-empty string |
| Layout.CnTwo | src/components/Layout.jsx:64-69 | the navigation links' two-argument call joins the base classes and the state classes with one space, whatever spaces they contain |
| Layout.CnIgnoresFalsy | src/components/Layout.jsx:14-16 | a falsy or empty argument anywhere does not change the class string |
| Layout.TruthySkips | src/components/Layout.jsx:15 | dropping one falsy argument does not change the filtered list |
| Layout.CnSplits | src/components/Layout.jsx:14-16 | with space-free class names, splitting the result on spaces gives back the truthy arguments, and no arguments give "" |
| Alerts.LoadJSON | src/pages/Alerts.jsx:25-33 | a parseable value is returned as parsed; an absent, empty or unparseable one gives the fallback |
| Alerts.Save | src/pages/Alerts.jsx:35-37 | what is saved reads back as the same array under the page's two fallbacks, `null` and `[]` |
| Alerts.SaveReadsBack | src/pages/Alerts.jsx:25-37 | a saved array reads back unchanged whatever fallback the reader passes |
| Alerts.SeedRecipients | src/pages/Alerts.jsx:43-84 | four demo recipients, with the first four ids, created now and all active |
| Alerts.SeedHistory | src/pages/Alerts.jsx:86-114 | three delivered demo entries, with the last three ids, six, four and two hours old |
| Alerts.SeedIfEmpty | src/pages/Alerts.jsx:39-118 | storage with recipients is left alone; otherwise both keys are overwritten with the demo data; afterwards recipients are always present |
| Alerts.Mount | src/pages/Alerts.jsx:270-281 | after mounting, the page shows a non-empty recipient list, synced with the seeded storage; the render fails exactly when stored recipients exist next to a non-array history |
| Alerts.RemoveId | src/pages/Alerts.jsx:302-305 | every record with the id is gone, every other record keeps its multiplicity and relative order, and nothing changes when the id is absent |
| Alerts.RemoveIdIdempotent | src/pages/Alerts.jsx:302-305 | removing twice is removing once |
| Alerts.SetActive | src/pages/Alerts.jsx:307-310 | the records with the id get the flag and change in nothing else; all others are untouched |
| Alerts.SetActiveLastWins | src/pages/Alerts.jsx:307-310 | toggling twice leaves the second setting |
| Alerts.Spread | src/pages/Alerts.jsx:314 | a present patch value wins, an absent one keeps the earlier value |
| Alerts.SpreadFieldsLaws | src/pages/Alerts.jsx:314 | an empty patch changes nothing, two patches act as one with the later winning, and repeating a patch changes nothing more |
| Alerts.EditRecipient | src/pages/Alerts.jsx:313-315 | the edited records take the data's id and date when it carries them and keep their own otherwise, and get the data's content fields spread over theirs; others are unchanged |
| Alerts.EditKeepsIds | src/pages/Alerts.jsx:313-315 | an edit whose data carries the edited record's own id (as the form's does) or none leaves every id in place |
| Alerts.NewRecipient | src/pages/Alerts.jsx:316-322 | a created record has the fresh id and the current time, whatever the data held, and the data's content fields |
| Alerts.HistoryEntryFor | src/pages/Alerts.jsx:328-341 | each save logs a delivered entry with a fresh id and the current time, severity from the threshold or high, and an "added"/"updated" message with the name (or "undefined") |
| Alerts.Remove | src/pages/Alerts.jsx:302-305 | removal changes only the recipient list and its storage key, and keeps the page synced |
| Alerts.ToggleActive | src/pages/Alerts.jsx:307-310 | toggling changes only the recipient list and its storage key, and keeps the page synced |
| Alerts.Upsert | src/pages/Alerts.jsx:312-342 | create prepends the new record, edit updates in place, one history entry goes in front, and storage reads back what the page shows |
| Alerts.RunHistoryAppendOnly | src/pages/Alerts.jsx:328-341 | over any sequence of operations the earlier history stays intact at the end, with exactly one new entry per save in front |
| Alerts.RunStaysSynced | src/pages/Alerts.jsx:283-290 | over any sequence of operations, a reload would read exactly what the page shows |
| Alerts.ApplyKeepsIdsUnique | src/pages/Alerts.jsx:302-322 | one operation keeps recipient ids unique when a create uses an unused id |
| Alerts.RemoveKeepsUnique | src/pages/Alerts.jsx:302-305 | removal keeps recipient ids unique |
| Alerts.HeadIdNotInTail | src/pages/Alerts.jsx:302-305 | in a list with unique ids, the first id does not recur |
| Alerts.ConsUnique | src/pages/Alerts.jsx:321 | putting a record with a new id in front keeps ids unique |
| Alerts.RunKeepsIdsUnique | src/pages/Alerts.jsx:302-322 | over any sequence of operations with fresh create ids, recipient ids stay unique |
| Alerts.SeedOnce | src/pages/Alerts.jsx:270-281 | mounting again on what a mount left behind shows the same state, whatever the new draws |
| Alerts.ReloadShowsSameState | src/pages/Alerts.jsx:270-290 | a synced page with recipients reloads to the same state |
| Alerts.ReloadAfterRemovingAllReseeds | src/pages/Alerts.jsx:39-41 | after all recipients are removed, a reload seeds again and the demo history replaces the stored one |
| Alerts.SortedConfigs | src/pages/Alerts.jsx:344-346 | the recipient display copy is newest first and a permutation of the stored list |
| Alerts.SortedHistory | src/pages/Alerts.jsx:347-349 | the history display copy is newest first and a permutation of the stored history |
| Alerts.SeedHistoryShownNewestFirst | src/pages/Alerts.jsx:347-349 | the demo history, stored oldest first, is shown newest first |
| Alerts.LabelsDistinguish | src/pages/Alerts.jsx:146-156 | each severity has its own badge colour and each threshold its own label |
| Alerts.MissingThresholdReadsTwoWays | src/pages/Alerts.jsx:152-156 | a recipient saved without a threshold is labelled moderate, while the history entry for that save records high |

## Left out

- **Floating-point values.** The model does not compute with coordinates, NDVI values, PM2.5, hotspot offsets or the SVG dash lengths. Only their integer and threshold parts enter the contracts.
- **Hotspot `tempC`.** It is a random value used only for display.
- **Randomness and time.** `Math.random`, `Date.now`, `new Date()` and `uid()` are parameters. The model uses one clock reading shared by every seeded record; the page calls `Date.now()` separately for each. Likewise `upsert` stamps a created recipient and its history entry with one `now`, where the page makes two separate `new Date()` calls.
- **The rounding draws.** `Math.round(30 + Math.random() * 55)` and the other draws are taken as arbitrary integers. Their narrower ranges are not assumed, so the clamps are proved for any draw.
- **Failing writes.** `saveJSON` is taken never to throw. In the page, a quota or security error from `localStorage.setItem` after the state update would leave the page and storage out of step, and in `upsert` it would also skip the history write. `Synced` in `Remove`, `ToggleActive`, `Upsert` and `RunStaysSynced` holds only because a save always succeeds.
- **Storage and JSON.** `localStorage` and `JSON.parse`/`JSON.stringify` are reduced to three outcomes per key: missing, unparseable, or a parsed value that is or is not an array. The model does not check the elements of a stored array for the record shape.
- **Iterable non-arrays.** A stored value that is not an array is modelled as making the render fail. A stored string would be spread as characters instead, and that case is not modelled.
- **Server-side rendering.** The `typeof window === "undefined"` branch is not modelled.
- **Rendering and navigation.** JSX, icons, CSS tones, modals, menus, routing and `prettyTime` are display only. `Tone` names the three badge colours without the class strings.
- **Pages outside the core.** The zone records come from a data module that is not part of this model, so zones are an input. The fire-safety, fire-department and health pages are not part of this model.
- **Zone ids from the clock.** `Date.now()` ids are rendered as decimal text, because zone ids are only ever used inside template strings and comparisons.
- **Number() edge cases.** `Number(text)` is reduced to "NaN or a finite number". The page accepts an infinite coordinate (`Number("Infinity")`); the model cannot represent that value, so infinite coordinates are outside the model.
- **Float rounding.** `Math.round(sum / n)` is computed exactly, as the half-up rounding of the rational quotient, so floating-point error is not modelled.
- **Sorting on copies.** The pages sort copies (`slice()`, `[...xs]`). With immutable sequences every sort is on a copy.
- Layout.Truthy: truthy non-string arguments such as `true` or numbers are not modelled. The page passes only strings and falsy values to `cn`.
