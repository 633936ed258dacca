# PCT soundmap: a Dafny model of its core

The PCT soundmap is a map-based audio player for recordings made along the
Pacific Crest Trail. Selecting a recording plays it. The map flies to where
it was recorded, and the map's lighting is set from an estimate of the sun,
the season and the elevation at that moment and place.

This project models the logic behind those behaviours and proves properties
of it:

- the atmosphere estimator (`atmospherecontroller.js`). It places the sun
  from the clock, latitude and month, gives the time-of-day period, the
  season and an elevation effect from the trail mile, and derives sky
  colours, fog and light from those;
- the playlist and flight logic of the map (`mapcontroller.js`):
  - how a mile field is read for sorting and shown for display;
  - the northbound, southbound and chronological orderings;
  - the "is the playlist chronological" test;
  - the flight duration and the landing easing curve;
- the player's navigation bookkeeping (`audiocontroller.js`): `play`,
  `playNext`, `playPrevious`, `togglePlayPause` and `stop`, and the history
  used in random mode;
- the default zoom (`config.js`), with the screen diagonal, the viewport
  diagonal and the browser flags as inputs.

JavaScript values are modelled explicitly (module `JsValues`):

- truthiness of a mile field: `""`, `0`, `null` and `undefined` are falsy;
- `parseFloat`: leading white space, sign, digits, fraction and exponent;
  `NaN` when no digit is read;
- `trim`, `toLowerCase` on ASCII, and `toFixed(1)` up to its display
  precision.

`Math.sin` is a parameter, `sin: real -> real`. Properties that need its
sign on [0, π] assume that as a predicate, `SineNonNegativeOnHalfTurn`.
`Math.random()` and `Date.now()` are parameters of `PlayNext`. A screen or
viewport diagonal is taken as a real number in place of `Math.sqrt`.

Modules: `JsValues`, `Modes`, `TrailMiles`, `StableSort`, `Playlist`,
`Flight`, `Zoom`, `Periods`, `Solar`, `Elevation`, `Visuals`, `Atmosphere`,
`AudioNavigation`.

Facts about the estimator's code that shape the model:

- it has no terrain classification and no result cache. The elevation
  effect from the trail mile is its only terrain input;
- its light has no per-terrain multiplier;
- it uses the warm light colour for the `goldenHour` and `sunrise` periods
  only. It has no `sunset` period;
- its colour and fog tables are object literals looked up with
  `table[period] || table.midday`. A name that every object inherits, such
  as `toString`, finds a truthy function, so for those names nothing is
  copied and the base settings stay. `IsInheritedName` lists these names.

## Model

| member | source | states |
|---|---|---|
| JsValues.ToFixed1 | pct-soundmap/mapcontroller.js:23-24 | `toFixed(1)` yields a number with one decimal place, within 0.05 of its input |
| JsValues.ParseFloatReadsNatText | pct-soundmap/mapcontroller.js:21 | `parseFloat` of a decimal numeral yields the number it writes |
| JsValues.ParseFloatOfTildeIsNaN | pct-soundmap/atmospherecontroller.js:185 | a mile starting with `~` parses to NaN with a plain `parseFloat` |
| JsValues.ParseFloatOfNotApplicableIsNaN | pct-soundmap/mapcontroller.js:32 | a mile spelled "n/a" (any case, any surrounding white space) never parses to a number |
| JsValues.NotApplicableSpellings | pct-soundmap/mapcontroller.js:32 | `mile.toString().trim().toLowerCase() === 'n/a'` holds exactly for the texts that trim to `n`/`N`, `/`, `a`/`A` |
| TrailMiles.MileForSorting | pct-soundmap/mapcontroller.js:31-43 | there is no sort mile exactly when the field is missing, empty, numeric zero or "n/a"; a non-zero numeric field sorts as itself |
| TrailMiles.EstimatedMileSortsAsItsValue | pct-soundmap/mapcontroller.js:36-39 | an estimated mile `~n` sorts as `n`, the same as the plain mile `n` |
| TrailMiles.EstimatedMileSortsAsParsed | pct-soundmap/mapcontroller.js:36-39 | any estimated mile `~s` sorts as `parseFloat(s)`, decimals and exponents included, and has a sort mile exactly when that is a number |
| TrailMiles.NotApplicableHasNoSortMile | pct-soundmap/mapcontroller.js:32-34 | any spelling of "n/a" gives no sort mile |
| TrailMiles.NotApplicableNeedsLetterN | pct-soundmap/mapcontroller.js:32 | a text whose first character is neither white space nor `n`/`N` is never read as "n/a" |
| TrailMiles.NumericZeroMileIsMissing | pct-soundmap/mapcontroller.js:32 | a numeric mile 0 is falsy and counts as no mile |
| TrailMiles.DisplayMile | pct-soundmap/mapcontroller.js:14-28 | estimated miles are hidden; in southbound mode exactly the truthy, numeric, non-"n/a" miles are mirrored to 2655.8 minus the mile, to one decimal place; all others are shown unchanged |
| TrailMiles.DisplayOutsideSouthboundIsRaw | pct-soundmap/mapcontroller.js:19-27 | outside southbound mode a mile that is shown is shown as stored |
| TrailMiles.SouthboundMirrorIsInvolution | pct-soundmap/mapcontroller.js:22-23 | mirroring a displayed southbound mile again gives back the original mile to within 0.1 |
| StableSort.InsertionSort | pct-soundmap/mapcontroller.js:345-353 | the array sort rearranges its input: same elements, same multiplicities |
| StableSort.SortIsAdjacentOrdered | pct-soundmap/mapcontroller.js:345-353 | with an asymmetric comparator no element of the sorted array goes strictly before its left neighbour |
| StableSort.InsertKeepsOrder | pct-soundmap/mapcontroller.js:345-353 | inserting one element into an adjacent-ordered array keeps it adjacent-ordered |
| StableSort.FilterSplits | pct-soundmap/mapcontroller.js:331-339 | the tracks with a mile and the tracks without one together make up the input, with multiplicity |
| StableSort.ReverseIsPermutation | pct-soundmap/mapcontroller.js:357 | `reverse()` rearranges the elements without adding or losing any |
| StableSort.ChainedKeysAreSorted | pct-soundmap/mapcontroller.js:326-327 | a sequence whose neighbours are ordered by a key is sorted by that key throughout |
| StableSort.ReversedPrefixDescends | pct-soundmap/mapcontroller.js:357-363 | a block sorted ascending and reversed ahead of another block descends throughout its length |
| Playlist.SortByMileAndDate | pct-soundmap/mapcontroller.js:324-364 | every ordering mode returns the input tracks rearranged, none lost or added; "date" mode orders them from earliest to latest |
| Playlist.MileSortLayout | pct-soundmap/mapcontroller.js:330-364 | outside "date" mode the tracks with a mile come first and the others after them; the others run earliest to latest; down the first block a mile never rises by 0.01 or more |
| Playlist.SeparatedMilesDescend | pct-soundmap/mapcontroller.js:342-357 | when any two distinct miles are at least 0.01 apart, the first block runs from the highest mile to the lowest |
| Playlist.MileComparatorIsNotTransitive | pct-soundmap/mapcontroller.js:345-350 | the 0.01 tolerance makes the mile comparator intransitive: three tracks whose pairwise comparisons form a cycle |
| Playlist.IsCurrentlyChronological | pct-soundmap/mapcontroller.js:310-322 | true exactly when there are at least two tracks and none of the first (up to five) adjacent pairs runs backwards in time |
| Playlist.DateSortLooksChronological | pct-soundmap/mapcontroller.js:310-328 | a playlist of two or more tracks sorted in "date" mode is recognised as chronological |
| Flight.FlightDuration | pct-soundmap/mapcontroller.js:540-548 | the duration is between 2200 and 5000 ms: 2200 below 5 km, 5000 from 150 km on |
| Flight.FlightDurationIsMonotone | pct-soundmap/mapcontroller.js:789-798 | a longer flight never takes less time |
| Flight.FlightDurationIsContinuous | pct-soundmap/mapcontroller.js:540-548 | the duration grows by at most 0.04 ms per metre, so the three bands join without a jump |
| Flight.FlightBandsMeet | pct-soundmap/mapcontroller.js:542-547 | the band formulas agree at 5 km (2200), 50 km (4000) and 150 km (5000) |
| Flight.SmoothLandingEasing | pct-soundmap/mapcontroller.js:551-564 | on [0, 1] the easing stays within [0, 1] |
| Flight.EasingEndpointsAndJoins | pct-soundmap/mapcontroller.js:551-564 | the easing maps 0 to 0 and 1 to 1, and its three pieces meet at 0.3 (0.18) and 0.7 (0.82) |
| Flight.EasingIsMonotoneAndContinuous | pct-soundmap/mapcontroller.js:551-564 | the easing never goes backwards and rises at most 1.8 times as fast as time |
| Zoom.SpoofedSizesAreUnreliable | pct-soundmap/config.js:16-18 | a width of 1024 or a height of 768 marks the screen data unreliable; without the browser flags and those sizes it is reliable |
| Zoom.ViewportZoom | pct-soundmap/config.js:27-44 | each viewport-diagonal band gives its own zoom: above 2800 gives 4.2, above 2000 gives 4.95, above 1800 gives 4.45, above 1400 gives 4.5, and below gives 4.8 |
| Zoom.ReliableZoomAsWritten | pct-soundmap/config.js:52-55 | as written, a screen at or below the 27-inch diagonal never gets more than the 27-inch zoom 4.95 |
| Zoom.ReliableZoom | pct-soundmap/config.js:48-64 | corrected: the zoom stays in [4, 5.5]; at or below 2203 px it is at least 4.95; at or above 3037 px it is at most 4.4; strictly between them it is strictly between the two reference zooms |
| Zoom.ReliableZoomIsMonotone | pct-soundmap/config.js:51-64 | corrected: a larger diagonal never gets a larger zoom |
| Zoom.ReferencesAreMet | pct-soundmap/config.js:48-49 | both reference screens get exactly their reference zooms, 4.95 at 2203 px and 4.4 at 3037 px |
| Zoom.LargeScreensReachTheFloor | pct-soundmap/config.js:56-59 | a 4000 px diagonal is clamped to the floor zoom 4.0 |
| Zoom.SmallScreenExtrapolationIsReversed | pct-soundmap/config.js:52-55 | as written, 1403 px gets less zoom than 2203 px and 700 px falls below 4.0; the corrected formula gives 1403 px more zoom |
| Zoom.DefaultZoomAsWritten | pct-soundmap/config.js:6-66 | as written, no input gets more than the 27-inch zoom 4.95; unreliable screen data selects the viewport table; on reliable data above 2203 px the zoom is in [4, 4.95) |
| Zoom.ReliableAgreesAboveMonitor | pct-soundmap/config.js:48-64 | above 2203 px the formula as written and the corrected one agree, and the one as written never exceeds 4.95 |
| Zoom.DefaultZoomDiffersOnlyOnSmallScreens | pct-soundmap/config.js:6-66 | the default zoom as written and the corrected one differ only on reliable screens at or below 2203 px |
| Zoom.DefaultZoom | pct-soundmap/config.js:52-55 | corrected: unreliable screen data selects the viewport table, otherwise the corrected diagonal formula; the result is in [4, 5.5] |
| Periods.GetTimePeriod | pct-soundmap/atmospherecontroller.js:202-212 | the period returned is the one whose altitude band contains the altitude |
| Periods.BandsAreExclusive | pct-soundmap/atmospherecontroller.js:202-212 | an altitude lies in exactly one period's band |
| Periods.EveryPeriodIsReached | pct-soundmap/atmospherecontroller.js:202-212 | every period is returned for some altitude |
| Periods.TimePeriodIsMonotone | pct-soundmap/atmospherecontroller.js:202-212 | a higher sun never gives an earlier period in the order night, twilights, sunrise, golden hour, morning, midday, noon |
| Periods.PeriodLabelRoundTrip | pct-soundmap/atmospherecontroller.js:203-211 | every period's label reads back as that period |
| Periods.SeasonLabelRoundTrip | pct-soundmap/atmospherecontroller.js:219-222 | each season's label reads back as that season |
| Periods.GetSeason | pct-soundmap/atmospherecontroller.js:214-223 | winter is 21 Dec to 19 Mar, spring 20 Mar to 20 Jun, summer 21 Jun to 22 Sep, autumn the rest, each as an if-and-only-if |
| Periods.DecemberSplits | pct-soundmap/atmospherecontroller.js:219-222 | December is autumn before the 21st and winter from then on |
| Solar.PacificOffset | pct-soundmap/atmospherecontroller.js:21-23 | the offset from UTC is 7 hours exactly in months 3 to 11, otherwise 8 |
| Solar.PacificClock | pct-soundmap/atmospherecontroller.js:15-31 | the Pacific hour is the UTC hour minus the offset, wrapped into [0, 24); the day goes back one exactly when the subtraction wraps |
| Solar.PacificClockRoundTrip | pct-soundmap/atmospherecontroller.js:26-30 | adding the offset back to the Pacific hour recovers the UTC hour |
| Solar.WallClock | pct-soundmap/atmospherecontroller.js:11-40 | a UTC text ending in `Z` is read on the Pacific clock: its hour is in [0, 24) and adding the Pacific offset back gives the UTC hour modulo 24; month and minute are the UTC ones; the day goes back one exactly when the UTC hour is below the offset. Any other date is read on its local clock |
| Solar.DayLength | pct-soundmap/atmospherecontroller.js:99-123 | day length is within [9, 16] hours, at most 12 in winter months and at least 12 in summer months when the seasonal factor is non-negative |
| Solar.WinterIsShort | pct-soundmap/atmospherecontroller.js:109-116 | before clamping, a winter day is at most 12 hours and a summer day with a non-negative seasonal factor at least 12 |
| Solar.TropicDayIsTwelveHours | pct-soundmap/atmospherecontroller.js:107 | at latitude 23.5 every day is 12 hours |
| Solar.MaxSolarAltitude | pct-soundmap/atmospherecontroller.js:87-96 | the noon altitude is within [20, 90]: either the floor 20 or 90 minus the distance between latitude and declination |
| Solar.SunAt | pct-soundmap/atmospherecontroller.js:42-84 | at night the azimuth is 0 and the altitude is -6 exactly within an hour of sunset or sunrise, otherwise -20; by day the azimuth lies in [90, 270], is 180 at noon, and the altitude is non-negative |
| Solar.AzimuthSweepsWest | pct-soundmap/atmospherecontroller.js:70-78 | through the day the azimuth never moves back east |
| Solar.SunriseEastSunsetWest | pct-soundmap/atmospherecontroller.js:47-78 | at sunrise the azimuth is 90 and at sunset 270 |
| Solar.CalculateSunPosition | pct-soundmap/atmospherecontroller.js:9-84 | on the clock `WallClock` selects: at night the azimuth is 0 and the altitude -6 or -20; by day the azimuth is in [90, 270] and is 180 at 12:00; a UTC text is placed at its Pacific time |
| Solar.UtcTextMatchesPacificDate | pct-soundmap/atmospherecontroller.js:15-40 | a UTC text ending in `Z` places the sun exactly as a date whose local clock is that instant's Pacific time |
| Elevation.ElevationAtMile | pct-soundmap/atmospherecontroller.js:188-194 | the profile is between 2500 and 8000 ft and reaches 8000 exactly in the Sierra Nevada section [700, 1100) |
| Elevation.ElevationEffect | pct-soundmap/atmospherecontroller.js:180-200 | the effect lies in [1, 1.5]; it is 1 for a missing or unparsable mile and 1.5 exactly for miles in [700, 1100) |
| Elevation.EstimatedMileHasDefaultEffect | pct-soundmap/atmospherecontroller.js:185 | an estimated mile `~n` gets the default effect 1 wherever it lies |
| Elevation.EffectTable | pct-soundmap/atmospherecontroller.js:188-199 | the effect in each profile section: 1, 1.3, 1.5, 1.4, 1.25, 1.2, 1.13 |
| Visuals.PaletteFor | pct-soundmap/atmospherecontroller.js:226-292 | every period's label selects that period's palette; an inherited property name such as `toString` leaves the base colours; any other string selects midday's |
| Visuals.SkyIdentifiesPeriod | pct-soundmap/atmospherecontroller.js:234-289 | no two periods share a sky colour |
| Visuals.CalculateColors | pct-soundmap/atmospherecontroller.js:225-321 | the colours are the period's palette: the seasonal and elevation adjustments change nothing |
| Visuals.ColorsIgnoreSeasonAndElevation | pct-soundmap/atmospherecontroller.js:302-320 | the colours do not depend on the season or on the elevation effect |
| Visuals.CalculateFog | pct-soundmap/atmospherecontroller.js:323-350 | the profile's fog range scaled by the effect; fixed colours; stars exactly at night (0.8) and sunrise (0.2) |
| Visuals.FogProfileFor | pct-soundmap/atmospherecontroller.js:324-343 | a period with a fog profile gets it; an inherited property name leaves the base fog (range [0.5, 10], blend 0.1, no stars); any other string gets midday's |
| Visuals.TwilightsFogLikeMidday | pct-soundmap/atmospherecontroller.js:334-343 | the three twilights have no fog profile and are fogged like midday |
| Visuals.FogRecedesWithElevation | pct-soundmap/atmospherecontroller.js:345-347 | a larger elevation effect never brings either end of the fog range closer |
| Visuals.SeasonIntensity | pct-soundmap/atmospherecontroller.js:357-364 | every seasonal factor, the default 1 included, lies in [0.8, 1.1] |
| Visuals.CalculateLight | pct-soundmap/atmospherecontroller.js:352-372 | intensity in [0, 1.1] and at most the season's factor; warm colour exactly for golden hour and sunrise; position (1.15, azimuth, altitude); anchored to the viewport |
| Visuals.LightGrowsWithAltitude | pct-soundmap/atmospherecontroller.js:354-364 | in one season a higher sun never gives less light |
| Visuals.DuskLightIsDim | pct-soundmap/atmospherecontroller.js:354-364 | at or below 6 degrees under the horizon the intensity is at most 4/70 times 1.1 |
| Atmosphere.GetAtmosphericConditions | pct-soundmap/atmospherecontroller.js:145-178 | the sun is placed from the track's local clock; the period and season labels name the classified period and season; the colours are the period's palette; effect and light stay in range |
| Atmosphere.NoDeepTwilight | pct-soundmap/atmospherecontroller.js:153-159 | the estimator never reports nautical or astronomical twilight; with the sun below the horizon it reports night or civil twilight |
| Atmosphere.NightLightIsDim | pct-soundmap/atmospherecontroller.js:153-176 | outside the daylight window the light is at most 4/70 times 1.1 |
| AudioNavigation.Initial | pct-soundmap/audiocontroller.js:3-13 | the player starts in a valid state |
| AudioNavigation.InitialRecordsNothing | pct-soundmap/audiocontroller.js:3-40 | from the start the first `play` records nothing and the first `playNext` is not refused |
| AudioNavigation.RecordLeaving | pct-soundmap/audiocontroller.js:34-40 | leaving a track for another one appends it to the history, keeping the latest 50; otherwise the history is unchanged |
| AudioNavigation.Play | pct-soundmap/audiocontroller.js:25-43 | a missing track only drops the audio; otherwise the requested track becomes current and playing, with the history recorded; validity is kept |
| AudioNavigation.PlayAudio | pct-soundmap/mapcontroller.js:450-466 | a request for a missing track leaves the player untouched; otherwise it is `play` |
| AudioNavigation.ReplayRecordsNothing | pct-soundmap/audiocontroller.js:35 | replaying the current track adds nothing to the history |
| AudioNavigation.NextIndex | pct-soundmap/audiocontroller.js:92-111 | the next position is in range; it moves down the list in date and southbound order and up it in northbound order |
| AudioNavigation.PrevIndex | pct-soundmap/audiocontroller.js:129-148 | the previous position is in range and moves the opposite way |
| AudioNavigation.NextAndPrevAreInverse | pct-soundmap/audiocontroller.js:92-148 | "previous" undoes "next" and "next" undoes "previous", wrap-around included |
| AudioNavigation.NextCyclesThroughAll | pct-soundmap/audiocontroller.js:92-111 | `k` steps of "next" from `i` land on `i + k` (northbound `i - k`) modulo the list length |
| AudioNavigation.RandomIndex | pct-soundmap/audiocontroller.js:90 | a random pick is a position in the list |
| AudioNavigation.PlayNext | pct-soundmap/audiocontroller.js:78-117 | a call within a second of the last accepted one changes nothing; otherwise it stamps the time and plays the chosen track when it differs from the current one; validity is kept |
| AudioNavigation.RapidSecondCallIsRefused | pct-soundmap/audiocontroller.js:79-85 | after an accepted call, a second call less than a second later is refused |
| AudioNavigation.PlayPreviousAsWritten | pct-soundmap/audiocontroller.js:119-152 | as written, random mode with an empty history does nothing; otherwise it pops the latest entry and plays it, pushing the track it leaves back when there is one and it differs; an entry that is no longer a position is dropped without playing; sequential mode plays the previous position; validity is kept |
| AudioNavigation.PreviousTwiceReturnsAsWritten | pct-soundmap/audiocontroller.js:122-127 | as written, two presses of "previous" in random mode return to the starting track and history |
| AudioNavigation.RandomPreviousOscillates | pct-soundmap/audiocontroller.js:122-127 | as written, with history [0, 1] while track 2 plays, "previous" goes to 1 and then back to 2 |
| AudioNavigation.PlayPrevious | pct-soundmap/audiocontroller.js:119-152 | corrected: random mode pops the latest history entry and plays it without pushing the track it leaves; sequential mode is unchanged |
| AudioNavigation.PreviousWalksBack | pct-soundmap/audiocontroller.js:122-127 | corrected: `k` presses of "previous" visit the last `k` history entries, newest first, and consume them |
| AudioNavigation.TogglePlayPause | pct-soundmap/audiocontroller.js:66-76 | without audio nothing changes; otherwise `isPlaying` becomes true exactly when the element was paused; nothing else changes |
| AudioNavigation.ToggleTwiceRestores | pct-soundmap/audiocontroller.js:66-76 | a second toggle, on the element the first one left, restores `isPlaying` |
| AudioNavigation.Stop | pct-soundmap/audiocontroller.js:154-161 | nothing is selected or playing afterwards; the history is kept |
| AudioNavigation.StopThenPlayRecordsNothing | pct-soundmap/audiocontroller.js:154-161 | the first `play` after `stop` records nothing, because no track is being left |
| AudioNavigation.NextThenPreviousReturns | pct-soundmap/audiocontroller.js:78-152 | in sequential mode, "previous" right after an accepted "next" comes back to the track that was playing |

## Left out

- DOM, Mapbox, `fetch`, notifications, popups, timers and the wake lock are
  left out. So are the `transitionInProgress` and `isPositioning` flags. They
  are rendering or I/O and do not decide any value modelled here.
- Visuals.SeasonIntensity: a season string naming an inherited property
  makes the JavaScript intensity NaN. A real cannot hold NaN, so the
  contract covers season labels and strings naming no property. The
  estimator only passes labels from `getSeason`.
- The audio element itself is left out: `hasAudio` only records whether the
  player holds one, and its `paused` flag is a parameter of
  `TogglePlayPause`. Its `ended` handler calls `playNext`, which is modelled.
- The `Date` parser is not modelled. The track's date is given as its UTC and
  local clock fields, and `Intl`/timestamp formatting is left out.
- `Math.sin` is an uninterpreted parameter. `Math.sqrt` and the haversine
  distance are replaced by given diagonals and distances. IEEE-754 rounding is
  not modelled: arithmetic is exact on reals.
- `parseFloat` does not read `Infinity`. The modelled `Number` has no
  infinities, and a latitude that parses to NaN is not modelled.
- `getJulianDate`, `getTimezoneOffset` and `toDeg` are not modelled. No
  modelled function calls them.
- The UTC-text branch of `calculateSunPosition` is modelled (`WallClock`),
  but `getAtmosphericConditions` always passes a `Date` object. That branch
  is dead on the estimator's path, so the pipeline reads the local clock.
- Atmosphere.GetAtmosphericConditions: does not restate the fog settings in
  its contract. `Visuals.CalculateFog` states them for the same arguments.
- Playlist.SortByMileAndDate: outside "date" mode the full descending order
  of the mile block is proved only when distinct miles are at least 0.01
  apart (`SeparatedMilesDescend`). The comparator's 0.01 tolerance is not
  transitive, so the engine's order is implementation-defined otherwise. The
  model uses a stable insertion sort; for all inputs it proves the adjacent
  tolerance order, the block layout and the permutation.
- Solar.SunAt: the non-negative daytime altitude is stated under the
  assumption that the given sine is non-negative on [0, π].
- Applying the atmosphere to the map (`applyAtmosphere`,
  `applyFallbackAtmosphere`, `adjustMapStyle`, `transitionToTrack`) is left
  out. It is rendering glue.
- The player UI and the start-up script (`uicontroller.js`, `main.js`) are
  not part of this model.

## Findings

| source | as written | input that shows it | evidently intended | confidence | as-written member | corrected member |
|---|---|---|---|---|---|---|
| pct-soundmap/config.js:52-55 | below the 27-inch diagonal the zoom is `4.95 + slope * (2203 - d)` with a negative slope, so smaller screens get less zoom and the 5.5 cap can never apply | a 1403 px diagonal gets about 4.42, less than 4.95 at 2203 px; 700 px gets about 3.96, below the 4.0 floor | per the code comment, extrapolate to a higher zoom on smaller screens, rising towards the 5.5 cap | not executed | Zoom.ReliableZoomAsWritten, Zoom.DefaultZoomAsWritten, Zoom.SmallScreenExtrapolationIsReversed | Zoom.ReliableZoom, Zoom.ReliableZoomIsMonotone, Zoom.DefaultZoom |
| pct-soundmap/audiocontroller.js:122-127 | random-mode "previous" pops the last history entry and plays it through `play`, which pushes the track being left (lines 35-40) back onto the history | history [0, 1] while track 2 plays: "previous" plays 1 with history [0, 2], a second "previous" plays 2 with history [0, 1] again | repeated "previous" walks back through the history: 1, then 0 | not executed | AudioNavigation.PlayPreviousAsWritten, AudioNavigation.RandomPreviousOscillates, AudioNavigation.PreviousTwiceReturnsAsWritten | AudioNavigation.PlayPrevious, AudioNavigation.PreviousWalksBack |
