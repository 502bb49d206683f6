# SunsetForecast core, modelled in Dafny

SunsetForecast is an iOS app that scores how good tonight's sunset will be, along with the next days' sunsets, for the user's location and for saved favourite locations. Weather comes from Open-Meteo and air quality from the Open-Meteo air-quality API. This project models the app's decision logic and proves properties about it:

- **Hour alignment.** The shared `indexFor` routine matches an ISO sunset time such as `2025-04-26T19:42` to its hourly entry by the prefix `2025-04-26T19:`, using Swift's `split`, which drops empty pieces. `AirQualityService.findClosestTimeIndex` does the same match and falls back to the first entry on the same day.
- **Clarity score.** Aerosol optical depth is mapped through a sigmoid, with dust and PM2.5 as a fallback proxy, to a score in [40, 100].
- **Forecast list.** `HomeView.loadData` and `LocationPreview.loadData` build the list:
  - today's score weights high and low cloud at the sunset hour;
  - later days score `100 - mean cloud`;
  - the first listed day is blended 70/30 with the clarity score.
- **Averaged variant.** `Views/ContentView.loadData` averages the three cloud layers. Its four condition labels and the cloud and humidity labels of the `TodayConditionsCard` tiles are modelled too.
- **Favourites rows.** `FavRow.updateScore` computes each favourite row's score.
- **FavoritesStore.** A list of at most 10 distinct locations, supporting `add`, `remove`, `canAddMore` and `move`.
- **GradientHelper.** Maps a score to one of four three-colour bands.
- **Hex colour parsers.** Two `Color(hex:)` parsers are modelled:
  - `Helpers/Color+Hex.swift` reads 6 digits and falls back to white;
  - `SunsetForecast/ContentView.swift` reads 3, 6 or 8 digits.

Modelling conventions:

- **Dates.** A `Date` is an integer number of seconds. The golden hour starts 1800 seconds before sunset.
- **Formatters.** The date parser, the weekday formatter and the minute parser are function-valued parameters bundled in `Models.Formatters`.
- **Network results.** Every network call is a `Result` parameter. A failure carries the error description.
- **Sigmoid.** `exp` enters only through an abstract function `sigmoid: real -> real`, required to be monotone with values in [0, 1].
- **Truncation.** Swift's `Int(Double)` truncates toward zero. `Numerics.Trunc` models this explicitly.
- **Colours.**
  - A SwiftUI colour is modelled by the integer components it is built from: alpha, red, green and blue, each later divided by 255.
  - Opacity 1 is alpha 255.
  - The gradient bands are kept as their hex strings.
- **Views.** Each view whose fields `loadData` reassigns is a `class`. Its fields are the view's `@State` values, and `LoadData` states the whole new state. The `FavoritesStore` observable object and the `FavRow` row are classes too.

Where the code and the app's described behaviour differ, the model follows the code:

- **Truncation.** The code truncates every score with `Int(...)` rather than rounding.
- **Closest-time fallback.** `findClosestTimeIndex` returns 0, not "no index", when no entry falls on the sunset's day.
- **Blend without air quality.** When the air-quality fetch fails the clarity score is 100. The blended score `Int(0.7·c + 30)` then equals the cloud score `c` only for `c ≥ 97` (`HomeView.BlendWithFullClarity`); below that, the blend raises it.
- **Duplicated code.** Identical copies are modelled once; copies that differ are modelled separately, with a lemma relating them:
  - the four `indexFor` copies (HomeView, LocationPreview, Views/ContentView, FavoritesView) are one function, `Alignment.IndexFor`; `findClosestTimeIndex` in AirQualityService is `AirQualityService.FindClosestTimeIndex`, which builds the same `Alignment.HourLookupKey`;
  - the two identical `DailyForecast` declarations are one datatype;
  - the two `Color(hex:)` extensions are two functions, related by `ArgbHexFacts.ParsersAgreeOnSixDigits`;
  - the two humidity label functions are two functions, related by `TodayConditionsCard.HumidityLabelsDiffer`.

## Model

| member | source | states |
|---|---|---|
| Numerics.Trunc | SunsetForecast/Views/HomeView.swift:229 | Swift `Int(Double)`: the result is within 1 of the argument, on the argument's side of zero (truncation toward zero) |
| Numerics.TruncMonotone | SunsetForecast/Views/HomeView.swift:223 | truncation never decreases as its argument grows |
| Numerics.TruncOfWhole | SunsetForecast/Views/HomeView.swift:287 | a whole number is unchanged by truncation |
| Environment.Clamped | SunsetForecast/Helpers/Environment.swift:7-9 | for `lo <= hi` the result lies in [lo, hi], equals x when x is in range, lo below it and hi above it |
| Environment.ClampedIdempotent | SunsetForecast/Helpers/Environment.swift:7-9 | clamping twice is clamping once |
| Environment.ClampedMonotone | SunsetForecast/Helpers/Environment.swift:7-9 | clamping preserves order |
| Alignment.SplitOn | SunsetForecast/Views/HomeView.swift:317 | Swift `split(separator:)`: every piece is non-empty and free of the separator |
| Alignment.SplitOnLosesOnlySeparators | SunsetForecast/Views/HomeView.swift:317 | joining the pieces gives back the input with exactly the separators removed |
| Alignment.SplitOnRun | SunsetForecast/Views/HomeView.swift:317 | a separator-free run followed by the separator becomes the first piece, and splitting continues after it |
| Alignment.SplitOnFree | SunsetForecast/Views/HomeView.swift:319 | a non-empty text without the separator splits into itself alone |
| Alignment.SplitOnAbsent | SunsetForecast/Views/HomeView.swift:318 | a text without the separator gives at most one piece, so it fails the two-piece guard |
| Alignment.DatePart | SunsetForecast/Views/HomeView.swift:317-318 | there is a date piece exactly when the split on `T` gives two pieces; the date piece is non-empty and has no `T` |
| Alignment.HourLookupKey | SunsetForecast/Views/HomeView.swift:317-319 | a key exists only if the two-piece guard passes; it starts with the date piece and `T`, has a non-empty hour and ends with `:` |
| Alignment.LookupKeyOfTimestamp | SunsetForecast/Views/HomeView.swift:317-319 | for `date T hour : minutes` the key is exactly `date T hour :` |
| Alignment.NoKeyWithoutSeparator | SunsetForecast/Views/HomeView.swift:318 | a timestamp without `T` yields no key (`indexFor` returns nil) |
| Alignment.LeadingSeparatorGivesNoKey | SunsetForecast/Views/HomeView.swift:317-318 | `T19:00` splits into one piece (Swift drops the empty date piece), so there is no key |
| Alignment.HourPieceAsWritten | SunsetForecast/Views/HomeView.swift:319 | the interpolated `split(":")[0]` as written: defined only when the split is non-empty; it is colon-free and a prefix of the time piece without colons |
| Alignment.ColonOnlyTimePieceTraps | SunsetForecast/Views/HomeView.swift:317-319 | `2025-04-26T:` passes the two-piece guard, yet `":".split(":")` is empty, so `[0]` traps; the corrected key is None |
| Alignment.FirstIndexWithPrefix | SunsetForecast/Views/HomeView.swift:320 | `firstIndex { hasPrefix }`: None exactly when no entry has the prefix, otherwise the least index whose entry has it |
| Alignment.ExactHourResultUnique | SunsetForecast/Views/HomeView.swift:316-321 | at most one answer meets the `indexFor` contract, which therefore determines the result |
| Alignment.IndexFor | SunsetForecast/Views/HomeView.swift:316-321 | nil when the sunset has no lookup key or no entry starts with it, otherwise the first entry starting with the key; always a valid index |
| AirQualityService.ClarityScore | SunsetForecast/Services/AirQualityService.swift:88-112 | the score lies in [40, 100], and is 100 when no AOD, dust or PM2.5 value is known |
| AirQualityService.ClarityIgnoresFallbacksWithAod | SunsetForecast/Services/AirQualityService.swift:90-100 | when AOD is known, dust and PM2.5 do not affect the score |
| AirQualityService.ClarityAntitoneInAod | SunsetForecast/Services/AirQualityService.swift:90-100 | more aerosol never raises the clarity score |
| AirQualityService.ClarityAntitoneInProxy | SunsetForecast/Services/AirQualityService.swift:102-111 | without AOD, a larger dust and PM2.5 proxy never raises the score |
| AirQualityService.ClarityProxyCap | SunsetForecast/Services/AirQualityService.swift:102-111 | a proxy of 300 or more gives the floor score 40 |
| AirQualityService.FindClosestTimeIndex | SunsetForecast/Services/AirQualityService.swift:160-185 | None exactly when the list is empty or the timestamp has no key; the first exact-hour entry if one exists; otherwise the first same-day entry, or 0 when none shares the day |
| AirQualityService.ClosestAgreesWithExactHour | SunsetForecast/Services/AirQualityService.swift:173-175 | whenever the views' `indexFor` finds an hour, the service's lookup finds the same one |
| AirQualityService.FindAODForTime | SunsetForecast/Services/AirQualityService.swift:119-131 | the AOD reading at the closest index when there is one (nil entries give nil), and nil when there is no index or it is out of range |
| AirQualityService.EntryAt | SunsetForecast/Services/AirQualityService.swift:146-154 | an optional series' entry at i, present only when the series exists and i is in range |
| AirQualityService.FindFallbackValues | SunsetForecast/Services/AirQualityService.swift:138-157 | (nil, nil) without a closest index; otherwise the dust and PM2.5 entries at that index |
| HomeView.IndexForExample | SunsetForecast/Views/HomeView.swift:316-321 | sunset `2025-04-26T19:42` against hours 18:00, 19:00 and 20:00 aligns to index 1 |
| HomeView.HourlyCloudScore | SunsetForecast/Views/HomeView.swift:214-223 | today's score `50 + Int(clamp(0.4·high − 0.3·low))` lies in [0, 100] |
| HomeView.HourlyCloudScoreMonotone | SunsetForecast/Views/HomeView.swift:219-223 | more high cloud or less low cloud never lowers today's score, and mid cloud has no effect |
| HomeView.HourlyCloudScoreExamples | SunsetForecast/Views/HomeView.swift:219-223 | full high cloud with clear low level gives 90; full low cloud with no high cloud gives 20 |
| HomeView.DailyCloudScore | SunsetForecast/Views/HomeView.swift:229 | a later day's score is never negative, at most 100 for a non-negative mean, and 0 from a mean of 100 upwards |
| HomeView.DailyCloudScoreAntitone | SunsetForecast/Views/HomeView.swift:229 | a clear day scores 100 and more cloud never raises the score |
| HomeView.BlendScore | SunsetForecast/Views/HomeView.swift:287-288 | the blended score lies in [0, 100] |
| HomeView.BlendBetween | SunsetForecast/Views/HomeView.swift:286-288 | for scores in range, the blend lies between the cloud score and the clarity score |
| HomeView.BlendExample | SunsetForecast/Views/HomeView.swift:287 | cloud 80 with clarity 50 gives 71 |
| HomeView.BlendWithFullClarity | SunsetForecast/Views/HomeView.swift:287-288 | with clarity 100 the blend never lowers the cloud score; it keeps it exactly when the cloud score is at least 97 |
| HomeView.DayCloudScore | SunsetForecast/Views/HomeView.swift:211-230 | a day's score is non-negative and at most 100 when its mean cloud is non-negative |
| HomeView.ForecastDays | SunsetForecast/Views/HomeView.swift:204-232 | the list has at most one entry per daily time |
| HomeView.ParsedIndicesOrdered | SunsetForecast/Views/HomeView.swift:208-209 | the days whose date parses are listed below n, strictly increasing, and exactly those days are listed |
| HomeView.ForecastDaysLength | SunsetForecast/Views/HomeView.swift:208-231 | the list has one entry per day whose date parses |
| HomeView.ForecastDaysAt | SunsetForecast/Views/HomeView.swift:208-231 | entry k is the forecast built for the k-th day whose date parses |
| HomeView.ForecastDaysSkipUnparsed | SunsetForecast/Views/HomeView.swift:208-209 | the list is exactly the days whose date parses, in order; entry k carries day i's date, weekday and score |
| HomeView.ForecastDaysScoresBounded | SunsetForecast/Views/HomeView.swift:211-230 | every listed score is non-negative, and at most 100 when every mean is non-negative |
| HomeView.LaterDaysUseDailyMean | SunsetForecast/Views/HomeView.swift:227-229 | every entry after the first comes from a day after day 0, and so is scored from its daily mean |
| HomeView.TodayHourIndex | SunsetForecast/Views/HomeView.swift:212 | today's hour index exists exactly when day 0's date parses and its sunset aligns to an hourly entry |
| HomeView.TodayReading | SunsetForecast/Views/HomeView.swift:225-226 | today's cloud-at-sun and humidity readings are present exactly when today's hour index exists, and are read at that index |
| HomeView.BuildForecastList | SunsetForecast/Views/HomeView.swift:204-232 | the loop builds exactly the specified forecast list, today's cloud reading and today's humidity |
| HomeView.BlendFirst | SunsetForecast/Views/HomeView.swift:278-298 | only the first entry changes: it keeps its date and weekday and gets the blended score |
| HomeView.TodayAirInputs | SunsetForecast/Views/HomeView.swift:243-275 | no inputs when the fetch fails or there is no sunset; otherwise AOD and fallbacks looked up at the first sunset |
| HomeView.TodayClarity | SunsetForecast/Views/HomeView.swift:280-284 | the clarity used for the blend lies in [40, 100] |
| HomeView.AirQualityFailureStillBlends | SunsetForecast/Views/HomeView.swift:272-288 | a failed air-quality fetch gives clarity 100, and the first day is still blended with it |
| HomeView.GoldenMoment | SunsetForecast/Views/HomeView.swift:237-240 | the golden moment exists exactly when the sunset parses, and is 1800 seconds before it |
| HomeView.LoadedForecast | SunsetForecast/Views/HomeView.swift:204-298 | the list is the specified list with its first entry blended with today's clarity; the readings are those the loop stores, and the AOD is the one looked up at sunset |
| HomeView.BlendHitsFirstParsedDay | SunsetForecast/Views/HomeView.swift:278-295 | when day 0's date does not parse, the blend is applied to day 1, scored from its daily mean |
| HomeView.HomeView.constructor | SunsetForecast/Views/HomeView.swift:15-26 | every `@State` value starts empty or nil |
| HomeView.HomeView.LoadData | SunsetForecast/Views/HomeView.swift:190-314 | failure: only the error message changes; success: the forecasts are the blended list, the error message is cleared, today's mean and AOD are set, and cloud at sun, humidity, sunset and golden moment take their new values when present and keep their old ones otherwise |
| LocationPreview.LocationPreview.constructor | SunsetForecast/Views/LocationPreview.swift:7-19 | the preview keeps its location; every `@State` value starts empty or nil |
| LocationPreview.LocationPreview.LoadData | SunsetForecast/Views/LocationPreview.swift:134-256 | the same new state as the home screen's load, for the preview's location |
| ContentView.AveragedCloudScore | SunsetForecast/Views/ContentView.swift:295-299 | the averaged score lies in [0, 100]; a non-positive average gives 0 and an average of 100 or more gives 100 |
| ContentView.AveragedCloudScoreMonotone | SunsetForecast/Views/ContentView.swift:298-299 | more cloud in any layer never lowers the averaged score |
| ContentView.ModesDisagreeOnOvercast | SunsetForecast/Views/ContentView.swift:293-301 | an overcast sky scores 100 in the hourly mode but 0 in the daily mode; a clear sky scores the reverse |
| ContentView.AveragedDayScore | SunsetForecast/Views/ContentView.swift:292-302 | the score is non-negative and at most 100 for a non-negative mean; after day 0 it equals the home screen's day score |
| ContentView.AveragedDays | SunsetForecast/Views/ContentView.swift:289-304 | the list has at most one entry per daily time |
| ContentView.AveragedDaysMatchForecastDays | SunsetForecast/Views/ContentView.swift:289-304 | same length and the same dates and weekdays as the home screen's list; entries after the first are identical, and the whole list is identical when day 0 does not parse |
| ContentView.BuildAveragedList | SunsetForecast/Views/ContentView.swift:286-304 | the loop builds exactly the averaged forecast list |
| ContentView.LabelCloudMean | SunsetForecast/Views/ContentView.swift:339-343 | `Clear` exactly below 20, `Overcast` exactly from 60, `Partly` otherwise |
| ContentView.LabelHighCloud | SunsetForecast/Views/ContentView.swift:344-348 | `None` exactly below 10, `Many` exactly from 40, `Few` otherwise |
| ContentView.LabelHumidity | SunsetForecast/Views/ContentView.swift:349-353 | `Dry` exactly below 30, `Humid` exactly from 70, `OK` otherwise |
| ContentView.LabelAOD | SunsetForecast/Views/ContentView.swift:354-358 | `Low` exactly below 0.1, `High` exactly from 0.3, `Mod` otherwise |
| ContentView.ContentView.constructor | SunsetForecast/Views/ContentView.swift:24-34 | every `@State` value starts empty or nil |
| ContentView.ContentView.ConditionsGridNeverShown | SunsetForecast/Views/ContentView.swift:169-172 | humidity and AOD are never assigned, so the grid of conditions is never shown |
| ContentView.ContentView.LoadData | SunsetForecast/Views/ContentView.swift:274-329 | failure: only the error message changes; success: the forecasts are the averaged list and today's mean is set; high cloud is read at the aligned sunset hour; sunset and golden moment are set when the sunset parses and kept otherwise; humidity and AOD stay nil |
| FavoritesView.RowScore | SunsetForecast/Views/FavoritesView.swift:142-147 | the row score lies in [0, 100] |
| FavoritesView.RowScoreMatchesContentView | SunsetForecast/Views/FavoritesView.swift:145-147 | for every cloud reading, the row score equals the averaged hourly score of the other screen |
| FavoritesView.FavRow.constructor | SunsetForecast/Views/FavoritesView.swift:90-94 | a row starts with local time `--:--` and score 0 |
| FavoritesView.FavRow.UpdateScore | SunsetForecast/Views/FavoritesView.swift:130-155 | the score becomes the row score at the first sunset's aligned hour only when the fetch succeeds, a sunset exists and it aligns; otherwise the score is kept; the local time is untouched |
| FavoritesStore.DistinctMeansNoRepeats | SunsetForecast/Services/FavoritesStore.swift:27-31 | in a distinct list no two positions hold the same location |
| FavoritesStore.RemoveById | SunsetForecast/Services/FavoritesStore.swift:33-35 | keeps exactly the locations whose id differs, and no longer than before |
| FavoritesStore.RemoveByIdAppend | SunsetForecast/Services/FavoritesStore.swift:34 | removal distributes over concatenation, so it keeps the remaining order |
| FavoritesStore.RemoveAbsentId | SunsetForecast/Services/FavoritesStore.swift:34 | removing an id that is absent leaves the list unchanged |
| FavoritesStore.RemoveByIdSubMultiset | SunsetForecast/Services/FavoritesStore.swift:34 | removal only takes elements away |
| FavoritesStore.MovedIsPermutation | SunsetForecast/Services/FavoritesStore.swift:41-43 | moving elements keeps the length and the multiset of locations |
| FavoritesStore.MoveNothing | SunsetForecast/Services/FavoritesStore.swift:41-43 | moving an empty set of offsets changes nothing |
| FavoritesStore.MoveFirstToEnd | SunsetForecast/Services/FavoritesStore.swift:41-43 | moving offset 0 to the end of `[x, y, z]` gives `[y, z, x]` |
| FavoritesStore.FavoritesStore.constructor | SunsetForecast/Services/FavoritesStore.swift:16-25 | the list is the persisted one, or empty (and so valid) when nothing is stored |
| FavoritesStore.FavoritesStore.Add | SunsetForecast/Services/FavoritesStore.swift:27-31 | appends only a location not yet present while fewer than 10 are saved, otherwise changes nothing; keeps the list distinct and at most 10 long |
| FavoritesStore.FavoritesStore.Remove | SunsetForecast/Services/FavoritesStore.swift:33-35 | drops every location with the same id and keeps the invariant |
| FavoritesStore.FavoritesStore.CanAddMore | SunsetForecast/Services/FavoritesStore.swift:37-39 | true exactly when fewer than 10 locations are saved |
| FavoritesStore.FavoritesStore.Move | SunsetForecast/Services/FavoritesStore.swift:41-43 | the list becomes the `move(fromOffsets:toOffset:)` rearrangement, a permutation of it, keeping the invariant |
| GradientHelper.GradientColorsForScore | SunsetForecast/Helpers/GradientHelper.swift:13-41 | three colours; the default for nil; the fiery band exactly from 80, warm exactly in [60, 80), pastel exactly in [40, 60), muted exactly below 40 |
| GradientHelper.GradientBandMonotone | SunsetForecast/Helpers/GradientHelper.swift:15-40 | the band never gets duller as the score rises |
| GradientHelper.WarmBandIsDefault | SunsetForecast/Helpers/GradientHelper.swift:6-10 | every score in [60, 80) gets the same colours as no score |
| GradientHelper.CodeDisagreesWithTestedBoundaries | SunsetForecastTests/GradientHelperTests.swift:37-116 | in the code 25 and 1 are muted and 50 is pastel, unlike the tests that expect other bands |
| GradientHelper.CodeMeetsRemainingTestedScores | SunsetForecastTests/GradientHelperTests.swift:9-132 | the tested scores 150, 85, 80, 79, 65, 49, 0 and −10 and nil fall in the bands the tests expect |
| TodayConditionsCard.LabelHumidity | SunsetForecast/Views/Components/TodayConditionsCard.swift:90-94 | `Dry` exactly below 40, `Humid` exactly from 70, `OK` otherwise |
| TodayConditionsCard.HumidityLabelsDiffer | SunsetForecast/Views/Components/TodayConditionsCard.swift:90-94 | the card's and the other screen's humidity labels agree exactly outside [30, 40) |
| TodayConditionsCard.NatString | SunsetForecast/Views/Components/TodayConditionsCard.swift:32 | decimal text of a natural: non-empty, digits only and no leading zero |
| TodayConditionsCard.NatStringRoundTrip | SunsetForecast/Views/Components/TodayConditionsCard.swift:32 | reading the digits back gives the number |
| TodayConditionsCard.IntString | SunsetForecast/Views/Components/TodayConditionsCard.swift:32 | the text is a well-formed integer and starts with `-` exactly for negatives |
| TodayConditionsCard.IntStringRoundTrip | SunsetForecast/Views/Components/TodayConditionsCard.swift:32 | reading the integer text back gives the number |
| TodayConditionsCard.CloudAtSunText | SunsetForecast/Views/Components/TodayConditionsCard.swift:29-32 | the cloud-at-sun text is the truncated value's decimal text followed by `%` |
| TodayConditionsCard.ConditionTiles | SunsetForecast/Views/Components/TodayConditionsCard.swift:16-60 | four tiles with fixed titles; each shows `Loading...` exactly when its value is missing, otherwise its label |
| Hex.TrimStart | SunsetForecast/Helpers/Color+Hex.swift:9 | drops exactly the leading non-alphanumeric characters |
| Hex.TrimEnd | SunsetForecast/Helpers/Color+Hex.swift:9 | drops exactly the trailing non-alphanumeric characters |
| Hex.Trim | SunsetForecast/Helpers/Color+Hex.swift:9 | the trimmed text is no longer and begins and ends alphanumeric |
| Hex.TrimHex | SunsetForecast/Helpers/Color+Hex.swift:9 | trimming leaves hex digits alone |
| Hex.TrimIgnoresLeadingMark | SunsetForecast/Helpers/Color+Hex.swift:9 | a leading `#` or other mark is trimmed away |
| Hex.HexChar | SunsetForecast/Helpers/Color+Hex.swift:10-11 | digit formatting inverts digit reading |
| Hex.HexValue | SunsetForecast/Helpers/Color+Hex.swift:10-11 | the value of k hex digits is below 16^k |
| Hex.HexValueAppend | SunsetForecast/Helpers/Color+Hex.swift:10-11 | the value of concatenated digits is a positional sum |
| Hex.HexPrefixLen | SunsetForecast/Helpers/Color+Hex.swift:10-11 | the scanner reads the longest prefix of hex digits |
| Hex.ScanHex | SunsetForecast/Helpers/Color+Hex.swift:10-11 | the scanned value is below 16^length |
| Hex.ScanHexOfDigits | SunsetForecast/Helpers/Color+Hex.swift:10-11 | on hex digits the scan reads the whole text's value |
| Hex.FormatHex | SunsetForecast/Helpers/Color+Hex.swift:6 | formats a number as exactly `width` hex digits |
| Hex.FormatHexRoundTrip | SunsetForecast/Helpers/Color+Hex.swift:10-11 | reading formatted digits gives the number back |
| Hex.FormatHexScans | SunsetForecast/Helpers/Color+Hex.swift:9-11 | `#` plus formatted digits trims to the digits, which scan to the number |
| Hex.ByteOfTwoDigits | SunsetForecast/Helpers/Color+Hex.swift:16-18 | two hex digits hold a value below 256 |
| ColorHex.ColorFromHex | SunsetForecast/Helpers/Color+Hex.swift:7-30 | opaque, components in [0, 255], and white unless the trimmed text has six characters |
| ColorHex.MaskedRgb | SunsetForecast/Helpers/Color+Hex.swift:16-18 | the shifted and masked value gives an opaque colour whose three components are bytes |
| ColorHex.MaskedRgbOfBytes | SunsetForecast/Helpers/Color+Hex.swift:16-18 | on `r·65536 + g·256 + b` the shifts and masks recover exactly r, g and b |
| ColorHexFacts.ColorFromHexReadsBytes | SunsetForecast/Helpers/Color+Hex.swift:14-18 | six hex digits give red, green and blue from the digit pairs in order |
| ColorHexFacts.HashMarkIgnored | SunsetForecast/Helpers/Color+Hex.swift:6-9 | `#RRGGBB` and `RRGGBB` give the same colour |
| ColorHexFacts.ColorFromHexRoundTrip | SunsetForecast/Helpers/Color+Hex.swift:7-30 | formatting any r, g, b as `#RRGGBB` and parsing it gives back (255, r, g, b) |
| ArgbHex.ArgbFromHex | SunsetForecast/ContentView.swift:64-88 | lengths 3, 6 and 8 give components in [0, 255], lengths 3 and 6 are opaque, and any other length gives the fallback (1, 1, 1, 0) |
| ArgbHex.ShortRgb | SunsetForecast/ContentView.swift:71-72 | the 12-bit form is opaque and each of its components is a byte |
| ArgbHex.ShortRgbOfNibbles | SunsetForecast/ContentView.swift:72 | on `x·256 + y·16 + z` the 12-bit form gives each nibble times 17 |
| ArgbHex.Rgb | SunsetForecast/ContentView.swift:73-74 | the 24-bit form is opaque and each of its components is a byte |
| ArgbHex.RgbOfBytes | SunsetForecast/ContentView.swift:74 | on `r·65536 + g·256 + b` the 24-bit form recovers exactly r, g and b |
| ArgbHex.RgbIsMasked | SunsetForecast/ContentView.swift:74 | on 24-bit values the unmasked `int >> 16` gives the same red as the other parser's masked shift, so the two forms agree |
| ArgbHex.Argb | SunsetForecast/ContentView.swift:75-76 | the 32-bit form gives four byte components, alpha from the top byte |
| ArgbHex.ArgbOfBytes | SunsetForecast/ContentView.swift:76 | on `a·16777216 + r·65536 + g·256 + b` the 32-bit form recovers exactly a, r, g and b |
| ArgbHexFacts.ArgbReadsShortForm | SunsetForecast/ContentView.swift:71-72 | three hex digits give opaque components of each digit times 17 |
| ArgbHexFacts.ArgbReadsRgb | SunsetForecast/ContentView.swift:73-74 | six hex digits give opaque red, green and blue from the digit pairs |
| ArgbHexFacts.ArgbReadsArgb | SunsetForecast/ContentView.swift:75-76 | eight hex digits give alpha, red, green and blue from the digit pairs |
| ArgbHexFacts.ShortWhite | SunsetForecast/ContentView.swift:71-72 | `FFF` is opaque white |
| ArgbHexFacts.EncodedWord | SunsetForecast/ContentView.swift:66-76 | any 32-bit value written as `#` and eight hex digits parses back to the 32-bit form of that value |
| ArgbHexFacts.ArgbRoundTrip | SunsetForecast/ContentView.swift:64-88 | formatting any a, r, g, b as `#AARRGGBB` and parsing it gives them back |
| ArgbHexFacts.ParsersAgreeOnSixDigits | SunsetForecast/ContentView.swift:73-78 | the two `Color(hex:)` parsers agree on six characters and differ on every length other than 3, 6 and 8 |

## Findings

| source | as written | input that shows it | evidently intended | confidence | as-written member | corrected member |
|---|---|---|---|---|---|---|
| SunsetForecast/Views/HomeView.swift:317-319 | `indexFor` guards only on the sunset text splitting into two pieces on `T`. It then indexes `[0]` into the split of the time piece on `:`. The same code appears in LocationPreview.swift:259-261, Views/ContentView.swift:332-334 and FavoritesView.swift:159-161, and `findClosestTimeIndex` in AirQualityService.swift:164-169 | `2025-04-26T:` (the time piece is `:`, whose split is empty, so `[0]` traps) | return nil, as for any other timestamp without an hour | not executed | Alignment.HourPieceAsWritten, Alignment.ColonOnlyTimePieceTraps | Alignment.HourLookupKey |

## Left out

- Network I/O and JSON decoding (`SunsetService`, `AirQualityService.fetchData`, URL building): the decoded responses and fetch failures are parameters.
- The `async` and `MainActor` structure, `Task`s, and the `isLoading` flag set and reset by `defer` are left out. So are the `print` logging and the SwiftUI view bodies, layout and animation.
- Location services, reverse geocoding (`fetchLocationName`, `locationName`), the `lastCoord` throttling in Views/ContentView.swift and `FavoritesView.currentLocation` are left out: they depend on CoreLocation.
- `FavRow.updateLocalTime`: it reads the clock and a time zone.
- The `UserDefaults` persistence of `FavoritesStore` (`load`, `save` and the Combine sink that saves on change) is left out. The constructor receives the stored list, which may be absent, as a parameter.
- `DateFormatter` parsing and the weekday and minute formatting are left out; they appear as function parameters in `Models.Formatters`.
- `exp` in the sigmoid is modelled as an abstract monotone function with values in [0, 1]. Floating-point rounding, NaN and infinities are left out; all readings are exact reals.
- AirQualityService.ClarityScore: proved only as bounds, the all-nil case and monotonicity, without the exact sigmoid curve, because `exp` is not modelled.
- `Scanner.scanHexInt64` is modelled as reading the longest prefix of hex digits. Its `0x` prefix, whitespace skipping and 64-bit overflow are left out. Only texts of at most 8 characters reach a component.
- `CharacterSet.alphanumerics` is modelled as ASCII letters and digits only.
- The lengths of hex texts (`hexClean.count` in Color+Hex.swift, `hex.count` in ContentView.swift) are counted in Unicode code points, not in Swift's grapheme clusters. A text with combining marks, such as `1` followed by U+0301 and `23456`, is six characters in Swift but seven in the model. For the same reason the timestamp splits on `T` and `:` (`Alignment.SplitOn`) and the `hasPrefix` match (`Alignment.FirstIndexWithPrefix`) compare code points where Swift compares grapheme clusters; the two agree on ASCII ISO timestamps.
- The SwiftUI `Color` values are left out: a colour is its integer components, and the gradients are their hex strings. `Color("#...")` in GradientHelper names an asset rather than parsing hex, and asset lookup is not modelled.
- HomeView.HomeView.LoadData, LocationPreview.LocationPreview.LoadData and ContentView.ContentView.LoadData require that the hourly and daily arrays are at least as long as their time arrays. FavoritesView.FavRow.UpdateScore requires this only of the hourly arrays and `hourly.time`, since it reads the daily data only through `daily.sunset.first`. The Swift code would trap on shorter arrays instead; those traps are not modelled.
- HomeView.HomeView.LoadData, LocationPreview.LocationPreview.LoadData and ContentView.ContentView.LoadData also require, through `HomeView.Loadable`, that a fetched forecast has at least one `sunset` and one `cloudcover_mean` entry. The Swift code reads `sunset[0]` and `cloudcover_mean[0]` without a check, so it would trap on a forecast with no days; that trap is not modelled.
- ContentView.ContentView.LoadData and FavoritesView.FavRow.UpdateScore also require the total-cloud and humidity arrays to be complete, which the Swift code does not read.
- `Location`'s `UUID` id is modelled as a string, and its coordinates as reals; `add` compares whole values and `remove` compares ids, as the code does. Generating a fresh `UUID` is left out.
- The two `Color(hex:)` extensions are modelled as two functions, and the two identical `DailyForecast` declarations (Models/DailyForecast.swift and Views/ContentView.swift:7-11) as one datatype. The duplicate-declaration build error they would cause in one target is not modelled.
- The mock services and previews (`MockSunsetService`, `#Preview` blocks), location search (`LocationSearchService`, `OpenMeteoSearchService`, `SearchViewModel`, `SearchView`) and the remaining presentational views are left out: they hold no scoring logic.
