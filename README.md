# Leaflet routing app and CRVS Mali timeline, modelled in Dafny

This project models the logic of two Angular front ends held in one
repository.

**The Leaflet map application.**
- **The search-history service.** It keeps a most-recently-used list of
  geocoding results, capped at ten entries, in local storage.
- **The geocoding service.** It validates and parses coordinates with a
  regular expression, and it caches autocompletion lookups.
- **The map component.** It shows Mali's civil-status administration as four
  levels of markers: regions, cercles, communes and civil-status centres.
  Zoom buckets, marker clicks, a filter panel and name searches choose which
  markers are shown. The component draws at most one route from the user to a
  centre.

**The CRVS Mali timeline application.**
- **The static API configuration.** It holds the process types, the step
  statuses, the step definitions and the scenarios.
- **The process service.** It builds a process from a type's definitions and
  scenario, and it keeps the current process type.
- **The timeline component.** It sorts steps by order and picks the CSS
  classes and icons of each step.
- **The process banner.** It gives the banner's title and styles, and splits
  the NINA into one box per character.

One module covers each source file:

| module | file |
|---|---|
| `SearchHistory` | `search_history.dfy` |
| `Geocoding` | `geocoding.dfy` |
| `MapComponent` | `map_component.dfy` |
| `ApiConfig` | `api_config.dfy` |
| `ProcessService` | `process_service.dfy` |
| `Timeline` | `timeline.dfy` |
| `ProcessBanner` | `process_banner.dfy` |
| `Models` | `models.dfy` (the timeline's datatypes) |

Two small modules are shared:
- `Wrappers` holds `Option`.
- `JsStrings` models the JavaScript string operations the source relies on:
  `trim`, `trimStart`, `toLowerCase`, `includes`, `Number.prototype.toString`,
  and `parseInt` on plain decimals.

State the source changes in place lives in classes:
- `SearchHistoryService.storage`;
- `GeocodingService.autocompleteCache`;
- `ProcessService.currentProcessType`;
- `TimelineComponent.steps`;
- the fields of `MapComponentState`.

Each method of these classes is proved against specification functions, such
as `Added`, `Removed`, `Geocode`, `BuildProcessFromScenario`, `SortByOrder`,
`ZoomLayers` and `SearchPlaces`. Lemmas state what the source promises about
those functions.

## Model

| member | source | states |
|---|---|---|
| SearchHistory.StoredHistory | src/app/services/search-history.service.ts:15-27 | The history read is `[]` when the key is absent or its text does not parse, and is the stored list otherwise |
| SearchHistory.SearchHistoryService.GetSearchHistory | src/app/services/search-history.service.ts:15-27 | Returns exactly `StoredHistory` of the current storage |
| SearchHistory.FirstMatch | src/app/services/search-history.service.ts:34-37 | `findIndex` with the match rule (an equal truthy `placeId`, or equal lat and lon): -1 exactly when nothing matches, otherwise an index that matches with no match before it |
| SearchHistory.SearchHistoryService.FindExisting | src/app/services/search-history.service.ts:34-37 | The scan returns exactly `FirstMatch` |
| SearchHistory.FirstMatchIsFirst | src/app/services/search-history.service.ts:34-37 | An index that matches, with no match before it, is the one `findIndex` returns |
| SearchHistory.Added | src/app/services/search-history.service.ts:39-50 | After adding, the first entry is the item; a history of at most ten entries stays at most ten; it grows by at most one; every entry is the item or an old entry |
| SearchHistory.CapFront | src/app/services/search-history.service.ts:45-50 | `unshift` then `pop` on overflow: the item is first, the length is capped at ten, and the kept entries move down by one |
| SearchHistory.AddedPositions | src/app/services/search-history.service.ts:39-50 | With no match, every kept entry moves down one place. With a match at `i`, the entries before `i` move down one and the entries after `i` keep their index, so only the first match (and the last entry on overflow) is removed and relative order is kept |
| SearchHistory.AddedPositionsAroundMatch | src/app/services/search-history.service.ts:40-50 | The match case of `AddedPositions`: the length and where each old entry goes when entry `i` is the first match |
| SearchHistory.CapFrontAfterDelete | src/app/services/search-history.service.ts:41-50 | `splice(i, 1)`, `unshift` and `pop` together: entries before `i` move down one, entries after `i` keep their index |
| SearchHistory.AddedToFullDropsOldest | src/app/services/search-history.service.ts:45-50 | A full history with no match loses exactly its last (oldest) entry |
| SearchHistory.MatchesItself | src/app/services/search-history.service.ts:34-37 | Every entry matches itself, by its coordinates |
| SearchHistory.AddedIdempotent | src/app/services/search-history.service.ts:30-54 | Adding the same item twice in a row gives the history adding it once gives |
| SearchHistory.SearchHistoryService.AddToHistory | src/app/services/search-history.service.ts:30-54 | Storage afterwards holds `Added` of the history read, unless the write throws, in which case storage is unchanged |
| SearchHistory.Removed | src/app/services/search-history.service.ts:60-63 | The filter keeps exactly the old entries that do not match the item (the source's negated test in its own form) |
| SearchHistory.RemovedLeavesNoMatch | src/app/services/search-history.service.ts:60-63 | After removal no entry matches the item as `addToHistory` would match it |
| SearchHistory.RemovedAppend | src/app/services/search-history.service.ts:60-63 | Removal distributes over concatenation, so the remaining entries keep their order |
| SearchHistory.RemovedWithoutMatch | src/app/services/search-history.service.ts:60-63 | Removing an item nothing matches leaves the history as it is |
| SearchHistory.SearchHistoryService.RemoveFromHistory | src/app/services/search-history.service.ts:57-66 | Storage afterwards holds `Removed` of the history read, unless the write throws |
| SearchHistory.SearchHistoryService.ClearHistory | src/app/services/search-history.service.ts:69-71 | The key is removed, and the history read afterwards is `[]` |
| SearchHistory.SearchHistoryService.SaveHistory | src/app/services/search-history.service.ts:74-80 | Stores the list, or leaves storage unchanged when the write throws and the error is caught |
| SearchHistory.SearchHistoryService.constructor | src/app/services/search-history.service.ts:12 | The service starts over the storage it finds |
| Geocoding.IndexOf | src/app/services/geocoding.service.ts:73 | The position of the first occurrence of a character, or -1 when there is none |
| Geocoding.ValidCoordinateIffGrammar | src/app/services/geocoding.service.ts:72-75 | `isValidCoordinate` accepts exactly the strings of the regular expression's grammar: a latitude, one comma, any whitespace, a longitude, and nothing else |
| Geocoding.ValidImpliesGrammar | src/app/services/geocoding.service.ts:72-75 | Every accepted string can be cut into the grammar's pieces |
| Geocoding.GrammarImpliesValid | src/app/services/geocoding.service.ts:72-75 | Every string of the grammar is accepted |
| Geocoding.GrammarWitness | src/app/services/geocoding.service.ts:73 | A concrete cut into latitude, comma, whitespace and longitude witnesses the grammar |
| Geocoding.MagnitudeShape | src/app/services/geocoding.service.ts:73 | A latitude or longitude magnitude is non-empty, holds only digits and points, and ends in a digit |
| Geocoding.NumeralShape | src/app/services/geocoding.service.ts:73 | An accepted latitude or longitude is a non-empty numeral of digits, one optional point and an optional leading sign, ending in a digit |
| Geocoding.NumeralCharacters | src/app/services/geocoding.service.ts:73 | A numeral holds neither a comma nor whitespace |
| Geocoding.NumeralExcludes | src/app/services/geocoding.service.ts:73 | A numeral holds neither a comma nor whitespace, stated as membership facts |
| Geocoding.CutAfterWhitespace | src/app/services/geocoding.service.ts:73 | After the comma, the whitespace `\s*` consumes is exactly what `trimStart` drops |
| Geocoding.TrimAfterCut | src/app/services/geocoding.service.ts:73 | Whitespace followed by a non-whitespace character is exactly what `trimStart` removes |
| Geocoding.FirstOccurrence | src/app/services/geocoding.service.ts:73 | A comma with no comma before it is the first comma |
| Geocoding.LatitudeBounds | src/app/services/geocoding.service.ts:73 | Every accepted latitude has a value between -90 and 90 |
| Geocoding.LongitudeBounds | src/app/services/geocoding.service.ts:73 | Every accepted longitude has a value between -180 and 180 |
| Geocoding.FractionBelowOne | src/app/services/geocoding.service.ts:73 | The digits after a decimal point are worth less than one |
| Geocoding.FractionOfZeros | src/app/services/geocoding.service.ts:73 | A fraction of `0`s is worth zero, which holds 90 and 180 at their bounds |
| Geocoding.TwoDigitsValue | src/app/services/geocoding.service.ts:73 | A two-digit numeral is worth ten times its first digit plus its second |
| Geocoding.ThreeDigitsValue | src/app/services/geocoding.service.ts:73 | A three-digit numeral is worth its digits weighted 100, 10 and 1 |
| Geocoding.LatDegreesValue | src/app/services/geocoding.service.ts:73 | Latitude degrees are worth at most 90, and at most 89 unless they are `90` |
| Geocoding.LonDegreesValue | src/app/services/geocoding.service.ts:73 | Longitude degrees are worth at most 180, and at most 179 unless they are `180` |
| Geocoding.NoLeadingZero | src/app/services/geocoding.service.ts:73 | The whole degrees of an accepted latitude or longitude are one digit or do not start with `0` |
| Geocoding.DigitsAreWhole | src/app/services/geocoding.service.ts:73 | A string of digits has no sign and no point, so it is its own integer part |
| Geocoding.LatDegreesAccepted | src/app/services/geocoding.service.ts:73 | Every whole number from 0 to 89, written in decimal, is accepted latitude degrees and an accepted latitude |
| Geocoding.LonDegreesAccepted | src/app/services/geocoding.service.ts:73 | Every whole number from 0 to 179, written in decimal, is accepted longitude degrees and an accepted longitude |
| Geocoding.Split | src/app/services/geocoding.service.ts:82 | `split` gives at least one piece; with no separator it gives the whole string |
| Geocoding.SplitWithoutSeparator | src/app/services/geocoding.service.ts:82 | A string with no separator splits into itself alone |
| Geocoding.SplitAtOnly | src/app/services/geocoding.service.ts:82 | Splitting at the only separator gives exactly the two sides |
| Geocoding.NoCommaAfterCut | src/app/services/geocoding.service.ts:73 | Whitespace followed by comma-free text is comma-free, so an accepted string has no second comma |
| Geocoding.AcceptedShape | src/app/services/geocoding.service.ts:73-82 | An accepted string splits into exactly two parts around its only comma; it has no whitespace before the comma and none at either end |
| Geocoding.AcceptedShapeAt | src/app/services/geocoding.service.ts:73-82 | `AcceptedShape`, for a string already cut into its pieces |
| Geocoding.CutAccepted | src/app/services/geocoding.service.ts:73 | Every accepted string has a cut into numeral, comma, whitespace and numeral |
| Geocoding.TrimmedParts | src/app/services/geocoding.service.ts:82 | Trimming the two parts of an accepted string gives back the latitude text and the longitude text |
| Geocoding.TrimmedPartsAt | src/app/services/geocoding.service.ts:82 | `TrimmedParts`, for a string already cut into its pieces |
| Geocoding.TrimEndOfTrimStart | src/app/services/geocoding.service.ts:82 | `trim` equals `trimStart` when nothing trails the text |
| Geocoding.TrimOfNumeral | src/app/services/geocoding.service.ts:82 | Trimming a numeral leaves it unchanged |
| Geocoding.ParseCoordinates | src/app/services/geocoding.service.ts:77-84 | Null exactly when `isValidCoordinate` fails; otherwise the values of the two trimmed parts, with the latitude in [-90, 90] and the longitude in [-180, 180] |
| Geocoding.Geocode | src/app/services/geocoding.service.ts:19-60 | A cache hit returns the cached list and makes no request. A miss makes a request. Only a successful answer is cached, under the exact address. A failure yields `[]` and leaves the cache as it was. No entry is ever removed or changed |
| Geocoding.Suggest | src/app/services/geocoding.service.ts:63-69 | Text shorter than three characters (the empty string included) yields `[]` with no request and no cache change; longer text is a geocoding lookup |
| Geocoding.RepeatedLookupHitsCache | src/app/services/geocoding.service.ts:24-51 | Once the server has answered an address, the next lookup of it is a cache hit with the same results and no request |
| Geocoding.GeocodingService.GeocodeAddress | src/app/services/geocoding.service.ts:23-60 | The results, the new cache and the request log are those `Geocode` describes |
| Geocoding.GeocodingService.GetAutocompleteSuggestions | src/app/services/geocoding.service.ts:63-69 | The results, the new cache and the request log are those `Suggest` describes |
| Geocoding.GeocodingService.constructor | src/app/services/geocoding.service.ts:19 | The cache starts empty and no request has been made |
| JsStrings.TrimStart | src/app/services/geocoding.service.ts:82 | Drops a whitespace prefix, and what is left starts with a non-whitespace character (or is empty) |
| JsStrings.TrimEnd | src/app/services/geocoding.service.ts:82 | Drops a whitespace suffix, and what is left ends with a non-whitespace character (or is empty) |
| JsStrings.TrimStartIdempotent | src/app/services/geocoding.service.ts:82 | `trimStart` applied twice is `trimStart` applied once |
| JsStrings.TrimStartAfterWhitespace | src/app/services/geocoding.service.ts:73 | `trimStart` of whitespace then a text starting with non-whitespace is that text |
| JsStrings.TrimEmptyIffBlank | src/app/map/map.component.ts:1187 | `trim()` gives `''` exactly when every character is whitespace |
| JsStrings.TrimStartBlank | src/app/map/map.component.ts:1187 | `trimStart` of an all-whitespace string is empty |
| JsStrings.IsBlank | src/app/map/map.component.ts:1187 | The `input.trim() === ''` test holds exactly for all-whitespace input |
| JsStrings.ToLower | src/app/map/map.component.ts:1193-1195 | `toLowerCase` keeps the length and lower-cases each character where it stands |
| JsStrings.LowerCharFacts | src/app/map/map.component.ts:1193-1195 | Lower-casing one character twice is lower-casing it once, and never changes whether it is whitespace |
| JsStrings.ToLowerIdempotent | src/app/map/map.component.ts:1193-1195 | `toLowerCase` applied twice is `toLowerCase` applied once |
| JsStrings.ToLowerKeepsBlank | src/app/map/map.component.ts:1187-1193 | A string is all whitespace exactly when its lower-cased form is |
| JsStrings.Includes | src/app/map/map.component.ts:1195 | `includes` holds exactly when some position starts an occurrence of the search text |
| JsStrings.DigitChar | src/app/map/map.component.ts:1341-1343 | One decimal digit is a digit character of that value |
| JsStrings.NatToString | src/app/map/map.component.ts:1341-1343 | `toString()` of an index is a non-empty string of decimal digits |
| JsStrings.ParseDecimal | src/app/map/map.component.ts:991 | `parseInt` on a plain decimal string is its value; anything else is outside the model's domain |
| JsStrings.ParseDecimalNatToString | src/app/map/map.component.ts:991 | `parseInt` reads back the index `toString()` wrote |
| JsStrings.NatToStringInjective | src/app/map/map.component.ts:1341-1343 | Different indices give different strings |
| ApiConfig.IsStaticMode | crvs-mali-timeline/src/app/services/api-config.service.ts:346-348 | Static mode is on |
| ApiConfig.AreInteractionsEnabled | crvs-mali-timeline/src/app/services/api-config.service.ts:351-353 | Interactions are off |
| ApiConfig.GetProcessTypeConfig | crvs-mali-timeline/src/app/services/api-config.service.ts:25-59 | Every process type has an entry, and the entry's id is the type's key |
| ApiConfig.GetAllProcessTypes | crvs-mali-timeline/src/app/services/api-config.service.ts:316-318 | Three entries with distinct ids, one for every process type |
| ApiConfig.GetStepStatusConfig | crvs-mali-timeline/src/app/services/api-config.service.ts:60-105 | Total over the statuses; the entry's id is the status's key; only `NOT_STARTED` has a null icon, and the other icons are non-empty |
| ApiConfig.GetAllStepStatuses | crvs-mali-timeline/src/app/services/api-config.service.ts:326-328 | Four entries, one for every status |
| ApiConfig.StepDefinitionsUnder | crvs-mali-timeline/src/app/services/api-config.service.ts:331-333 | The `\|\| []` lookup: `[]` for a key with no entry, otherwise the table's list |
| ApiConfig.GetStepDefinitions | crvs-mali-timeline/src/app/services/api-config.service.ts:106-209 | Each type has four definitions, with orders 1, 2, 3, 4 in that order and distinct ids |
| ApiConfig.GetScenario | crvs-mali-timeline/src/app/services/api-config.service.ts:210-289 | Each type's scenario has a declaration number that starts with the type's prefix and `-`, and no scenario step is `NOT_STARTED` |
| ApiConfig.ScenarioMatchesDefinitions | crvs-mali-timeline/src/app/services/api-config.service.ts:106-289 | Each type's scenario steps name that type's definitions one for one, in order; every scenario `stepId` is a definition's id |
| ProcessService.FindScenarioStep | crvs-mali-timeline/src/app/services/process.service.ts:75 | `find` by `stepId`: -1 exactly when no scenario step has the id, otherwise the first one that has it |
| ProcessService.BuildProcessFromScenario | crvs-mali-timeline/src/app/services/process.service.ts:73-99 | The built process has the following properties: (1) one step per definition, in order; (2) `stepId`, `order`, label, `shortLabel`, `icon` and `description` copied from the definition; (3) the status of the first scenario step with that id, or `NOT_STARTED` when there is none; (4) a completion date exactly when that scenario step has a non-empty date; (5) no step for a scenario step without a definition; (6) the type is the argument, and `declarationNumber` and `nina` come from the scenario |
| ProcessService.StepIdSuffix | crvs-mali-timeline/src/app/services/process.service.ts:78 | A step's id is its definition's id, a dash and the instant |
| ProcessService.SuffixCancels | crvs-mali-timeline/src/app/services/process.service.ts:78-91 | Two ids built with the same `-<instant>` suffix are equal only when their prefixes are |
| ProcessService.BuiltStepIdsDistinct | crvs-mali-timeline/src/app/services/process.service.ts:78 | Definitions with distinct ids give steps with distinct ids |
| ProcessService.LowerKeysDistinct | crvs-mali-timeline/src/app/services/process.service.ts:91 | Different types have different lower-cased keys |
| ProcessService.BuiltProcessIdsDistinct | crvs-mali-timeline/src/app/services/process.service.ts:91 | Processes of different types built at the same instant have different ids |
| ProcessService.ShippedStepsNeverFallBack | crvs-mali-timeline/src/app/services/process.service.ts:84 | With the shipped tables no built step falls back to `NOT_STARTED` |
| ProcessService.ProcessService.CurrentProcess | crvs-mali-timeline/src/app/services/process.service.ts:12-30 | Subscribers see the last process published, or null before any |
| ProcessService.ProcessService.constructor | crvs-mali-timeline/src/app/services/process.service.ts:13-21 | The service starts on BIRTH and has published BIRTH's process |
| ProcessService.ProcessService.LoadCurrentProcess | crvs-mali-timeline/src/app/services/process.service.ts:36-45 | Remembers the type and publishes the process built from that type's scenario and definitions |
| ProcessService.ProcessService.GetCurrentProcessType | crvs-mali-timeline/src/app/services/process.service.ts:104-106 | Returns the current type |
| ProcessService.ProcessService.SwitchProcessType | crvs-mali-timeline/src/app/services/process.service.ts:111-115 | For the current type it changes nothing and publishes nothing; otherwise it loads the new type |
| ProcessService.LoadThenGet | crvs-mali-timeline/src/app/services/process.service.ts:36-106 | After loading a type, the service reports that type, and the process subscribers see is of that type |
| Timeline.Insert | crvs-mali-timeline/src/app/components/timeline/timeline.component.ts:21 | One insertion step of the sort: the same steps plus the new one |
| Timeline.InsertBounded | crvs-mali-timeline/src/app/components/timeline/timeline.component.ts:21 | A lower bound on every order survives insertion |
| Timeline.InsertSorted | crvs-mali-timeline/src/app/components/timeline/timeline.component.ts:21 | Inserting into a sorted list keeps it sorted |
| Timeline.SortByOrder | crvs-mali-timeline/src/app/components/timeline/timeline.component.ts:21-27 | The result is a permutation of the steps (same multiset), sorted non-decreasingly by order |
| Timeline.SortedTail | crvs-mali-timeline/src/app/components/timeline/timeline.component.ts:21 | The tail of a sorted list is sorted |
| Timeline.WithOrderCons | crvs-mali-timeline/src/app/components/timeline/timeline.component.ts:21 | The steps of one order in a list with a known head |
| Timeline.InsertPastHead | crvs-mali-timeline/src/app/components/timeline/timeline.component.ts:21 | Inserting past a head of smaller order keeps the order classes |
| Timeline.InsertKeepsOrderClasses | crvs-mali-timeline/src/app/components/timeline/timeline.component.ts:21 | Inserting into a sorted list puts the new step before every step of its own order |
| Timeline.SortIsStable | crvs-mali-timeline/src/app/components/timeline/timeline.component.ts:21-27 | The sort is stable: the steps of each order keep their relative order |
| Timeline.TimelineComponent.constructor | crvs-mali-timeline/src/app/components/timeline/timeline.component.ts:17 | The bound input is kept and no steps are shown yet |
| Timeline.TimelineComponent.NgOnInit | crvs-mali-timeline/src/app/components/timeline/timeline.component.ts:19-23 | With a process bound, `steps` is its steps sorted (the process is only read, so its own list is unchanged); without one nothing changes |
| Timeline.TimelineComponent.NgOnChanges | crvs-mali-timeline/src/app/components/timeline/timeline.component.ts:25-29 | The same, and only when the change set names `process` |
| Timeline.StepNodeClassMap | crvs-mali-timeline/src/app/components/timeline/timeline.component.ts:32-56 | Exactly one colour class is set, chosen by the status (COMPLETED green, IN_PROGRESS orange, CANCELLED red, otherwise gray), and `clickable` is false |
| Timeline.TimelineComponent.GetConnectionLineClass | crvs-mali-timeline/src/app/components/timeline/timeline.component.ts:59-76 | `''` exactly from the last step on |
| Timeline.TimelineComponent.LineFollowsNode | crvs-mali-timeline/src/app/components/timeline/timeline.component.ts:32-76 | Before the last step, the line's class is the node's colour class followed by `-line` |
| Timeline.StepStatusIcon | crvs-mali-timeline/src/app/components/timeline/timeline.component.ts:79-82 | The status's icon, or `''` when it has none; `''` exactly for `NOT_STARTED` |
| ProcessBanner.FormatNina | crvs-mali-timeline/src/app/components/process-banner/process-banner.component.ts:25-27 | One single-character string per character, in order |
| ProcessBanner.FormatNinaJoins | crvs-mali-timeline/src/app/components/process-banner/process-banner.component.ts:25-27 | Joining the boxes gives back the NINA |
| ProcessBanner.GetProcessTitle | crvs-mali-timeline/src/app/components/process-banner/process-banner.component.ts:19-22 | The type's display name when it is non-empty, otherwise its name |
| ProcessBanner.ShippedTitleIsDisplayName | crvs-mali-timeline/src/app/components/process-banner/process-banner.component.ts:19-22 | With the shipped table, the title is always the non-empty display name |
| ProcessBanner.GetBannerBackgroundStyle | crvs-mali-timeline/src/app/components/process-banner/process-banner.component.ts:30-33 | The type's background, unchanged |
| ProcessBanner.GetBannerBorderStyle | crvs-mali-timeline/src/app/components/process-banner/process-banner.component.ts:36-39 | `4px solid ` followed by exactly the type's border colour |
| ProcessBanner.ShippedBorderUsesTypeColour | crvs-mali-timeline/src/app/components/process-banner/process-banner.component.ts:36-39 | With the shipped table, the border colour is the type's own colour |
| MapComponent.Children | src/app/map/map.component.ts:748-855 | The result holds exactly the children of the listed places: every child is in it, and everything in it is a child of one of them |
| MapComponent.ChildrenAppend | src/app/map/map.component.ts:748-855 | The children of two lists of places are those of the first followed by those of the second, so the places' order is kept |
| MapComponent.MaliDataShape | src/app/map/map.component.ts:99-218 | The shipped tree: two regions, each of two cercles, each with one commune holding one centre |
| MapComponent.MakeMarker | src/app/map/map.component.ts:343-396 | A marker shows its place's name, position and colour. It is `5 × weight` pixels, anchored at its centre. On hover it grows by four pixels and stays centred |
| MapComponent.Markers | src/app/map/map.component.ts:302-341 | One marker per place, in order |
| MapComponent.MarkersFor | src/app/map/map.component.ts:302-341 | The `forEach` that pushes one marker per place builds exactly `Markers` |
| MapComponent.ZoomBucket | src/app/map/map.component.ts:404-411 | The bucket is in 0..3: 3 exactly from 7.5, at least 2 exactly from 6.5, at least 1 exactly from 6 |
| MapComponent.ZoomBucketMonotone | src/app/map/map.component.ts:404-411 | Zooming in never lowers the bucket |
| MapComponent.NothingSelectedZoomShowsLevel | src/app/map/map.component.ts:423-746 | With nothing selected, a bucket change shows every place of the new level and no marker below it, whatever the direction |
| MapComponent.ExplosionMatchesGeneralZoom | src/app/map/map.component.ts:423-746 | The special case from regions to cercles shows what the general rule shows for cercles |
| MapComponent.ZoomOutToRegionsShowsRegions | src/app/map/map.component.ts:423-746 | Zooming out to bucket 0 always shows every region and nothing else |
| MapComponent.IndexText | src/app/map/map.component.ts:1341-1343 | A filter string is `''` exactly for index -1; otherwise `parseInt` reads it back as the index |
| MapComponent.NameFilter | src/app/map/map.component.ts:1193-1196 | The filter keeps at most the places it is given |
| MapComponent.NameFilterKeeps | src/app/map/map.component.ts:1193-1196 | A place is kept exactly when it is one of the places and its lower-cased name contains the search text |
| MapComponent.NameFilterAppend | src/app/map/map.component.ts:1193-1196 | The filter distributes over concatenation, so kept places stay in their original order |
| MapComponent.SearchPlacesByTrim | src/app/map/map.component.ts:1186-1197 | The search gives every place for input that is blank after `trim`; otherwise it filters with the lower-cased, untrimmed input |
| MapComponent.SearchIgnoresInputCase | src/app/map/map.component.ts:1186-1197 | The search ignores the case of the input: lower-cased input finds the same places |
| MapComponent.RemoveRoute | src/app/map/map.component.ts:1427-1487 | `removeControl`: the control is gone and every other control stays |
| MapComponent.MapComponentState.constructor | src/app/map/map.component.ts:53-96 | The field initialisers: no markers, no selection, bucket 0, empty panel and lists, no position, no route |
| MapComponent.MapComponentState.ClearCommuneAndLowerMarkers | src/app/map/map.component.ts:1471-1483 | Empties only the commune and centre markers |
| MapComponent.MapComponentState.ClearCercleAndLowerMarkers | src/app/map/map.component.ts:1460-1469 | Empties the cercle, commune and centre markers and keeps the regions |
| MapComponent.MapComponentState.ClearAllMarkers | src/app/map/map.component.ts:1449-1458 | Empties all four marker lists |
| MapComponent.MapComponentState.InitializeRegionMarkers | src/app/map/map.component.ts:302-341 | One marker per region and no other marker, bucket 0, nothing selected |
| MapComponent.MapComponentState.NgOnInit | src/app/map/map.component.ts:226-231 | The region markers, and every region offered in the panel |
| MapComponent.MapComponentState.ZoomStart | src/app/map/map.component.ts:279-282 | Remembers the zoom the gesture starts from |
| MapComponent.MapComponentState.ZoomEnd | src/app/map/map.component.ts:284-288 | The direction is `in` exactly when the new zoom is above the last one; then the zoom change is handled |
| MapComponent.MapComponentState.HandleGeneralZoom | src/app/map/map.component.ts:748-855 | Shows every place of the current bucket's level |
| MapComponent.MapComponentState.ZoomWithinSelectedRegion | src/app/map/map.component.ts:423-746 | With a region selected: zooming in goes one level below the old bucket, within the selection; zooming out shows the new bucket's level |
| MapComponent.MapComponentState.HandleZoomChange | src/app/map/map.component.ts:398-746 | The bucket becomes the new zoom's bucket; the markers are untouched when the bucket does not change, and otherwise are those `ZoomLayers` gives; the invariant is kept |
| MapComponent.MapComponentState.ClearRoute | src/app/map/map.component.ts:1485-1490 | No routing control is left, on the component or on the map |
| MapComponent.MapComponentState.CreateRoute | src/app/map/map.component.ts:1423-1447 | The existing control is removed before the new one is added, so exactly one route is shown: from the user to the given point |
| MapComponent.MapComponentState.HandleCivilStatusCenterClick | src/app/map/map.component.ts:972-981 | With no user position nothing changes; otherwise the single route goes to the centre |
| MapComponent.MapComponentState.UpdateUserLocationOnMap | src/app/map/map.component.ts:1540-1566 | Records the position routes start from and the radius of the accuracy circle |
| MapComponent.MapComponentState.UpdateFilterOptions | src/app/map/map.component.ts:1339-1369 | Each select shows its index as a string, or `''` for -1. Each option list holds the children of the selected parent, or `[]` while any ancestor is unselected |
| MapComponent.MapComponentState.HandleRegionMarkerClick | src/app/map/map.component.ts:858-900 | Selects the region alone, shows its cercles and updates the panel; the route is dropped exactly when another region was selected |
| MapComponent.MapComponentState.HandleCercleMarkerClick | src/app/map/map.component.ts:902-935 | Selects the cercle under its region, shows its communes and updates the panel |
| MapComponent.MapComponentState.HandleCommuneMarkerClick | src/app/map/map.component.ts:937-970 | Selects the commune under its cercle, shows its centres and updates the panel. The centre select keeps its old value, because `updateFilterOptions` never writes it, so `PanelNames` is not promised |
| MapComponent.MapComponentState.ResetFilters | src/app/map/map.component.ts:1372-1413 | The reset state: every filter and search string is `''`, every index is -1, every region is offered and no lower list, only the region markers are shown, the bucket is 0 and there is no route |
| MapComponent.MapComponentState.OnRegionFilterChange | src/app/map/map.component.ts:984-1030 | `''` resets the component; an index selects that region and shows its marker alone; the invariant is kept. `RegionFilterOutcome` collects both cases |
| MapComponent.MapComponentState.OnCercleFilterChange | src/app/map/map.component.ts:1032-1079 | With no region selected, it resets. With no cercle named, it falls back to the region select. Otherwise it selects the cercle and shows its marker alone. `CercleFilterOutcome` states every branch, including falling back through `onRegionFilterChange` to a reset |
| MapComponent.MapComponentState.OnCommuneFilterChange | src/app/map/map.component.ts:1081-1132 | `CommuneFilterOutcome`, for every branch. A named commune under a selected cercle is selected and shown alone. Otherwise, with a cercle selected, it is `CercleFilterOutcome`; with only a region, `RegionFilterOutcome`; with nothing, a reset |
| MapComponent.MapComponentState.OnCenterFilterChange | src/app/map/map.component.ts:1134-1183 | `CenterFilterOutcome`, for every branch. A named centre under a selected commune is shown alone and routed to when the user's position is known, with nothing else changed. Otherwise it takes the outcome of the nearest selected level (commune, cercle, region), or a reset |
| MapComponent.MapComponentState.FilterRegionsByInput | src/app/map/map.component.ts:1186-1197 | The region list becomes `SearchPlaces` of every region for the region search text |
| MapComponent.MapComponentState.FilterCerclesByInput | src/app/map/map.component.ts:1199-1212 | Nothing changes while no region is selected; otherwise the cercle list becomes `SearchPlaces` of the region's cercles |
| MapComponent.MapComponentState.FilterCommunesByInput | src/app/map/map.component.ts:1214-1227 | Nothing changes while no region or no cercle is selected; otherwise the commune list becomes `SearchPlaces` of the cercle's communes |
| MapComponent.MapComponentState.FilterCentersByInput | src/app/map/map.component.ts:1229-1246 | Nothing changes while any level is unselected; otherwise the centre list becomes `SearchPlaces` of the commune's centres |

Every method of `MapComponentState` that changes the selection requires and
ensures `Valid()`. That invariant is the nesting rule of the three indices
(commune selected ⇒ cercle selected ⇒ region selected, all in range), a
bucket in 0..3, and at most one routing control on the map.

## Left out

- Leaflet is abstract. The map object, tile layers, `L.marker`, `L.circle`,
  `L.divIcon`, tooltips and popups are not modelled. A marker is the record of
  what it shows and how big it is. A routing control is its two end points.
  `setView`, `setMinZoom` and `setMaxZoom` are not modelled, nor is the view
  `resetFilters` and the filter changes move to. The marker click handlers
  that `createMarker` binds are not part of the model; the click methods are
  modelled on their own.
- The pulse and explosion effects (timers, opacity and radius animation) are
  not modelled. The callback each explosion runs at its end is modelled as
  running at once.
- The `isCentralPosition` tests only choose transparent or coloured styling,
  so they are not modelled.
- `alert` and `console` output are not modelled.
- `createMarker`'s HTML and CSS are not modelled; only its sizes are.
- The geolocation service is not part of this model. That covers
  `getUserLocation`, `refreshUserLocation`, `toggleLocationTracking` and
  `stopLocationTracking`. `updateUserLocationOnMap` takes the position as
  parameters.
- `resetMap`, `ngOnDestroy` and `initMap` are left out. They are Leaflet set-up
  or call the geolocation service; `resetMap` is `resetFilters` followed by a
  position request.
- MapComponent.MapComponentState.OnRegionFilterChange: its filter string must
  be `''` or the decimal index of an option. The select in the template only
  supplies those values. The source would throw on an out-of-range index.
- MapComponent.MapComponentState.OnCercleFilterChange,
  MapComponent.MapComponentState.OnCommuneFilterChange and
  MapComponent.MapComponentState.OnCenterFilterChange: same as
  `OnRegionFilterChange`. They require `PanelNames`, that is, each select names
  an option of the list under the selection above it.
- JsStrings.ParseDecimal: models `parseInt` only on strings of decimal digits.
  Those are the only strings the selects hold. Leading whitespace, signs,
  radix prefixes and trailing junk are not modelled.
- JsStrings.ToLower: lower-cases ASCII and Latin-1 capitals only. The place
  names are French. The full Unicode case mapping is not modelled.
- Strings are sequences of code points. UTF-16 surrogate pairs are not
  modelled.
- Coordinates and zoom levels are exact reals. `parseFloat`'s rounding to a
  double and NaN are not modelled.
- Geocoding.ParseCoordinates: gives the exact decimal value of each part.
  `parseFloat`'s rounding to the nearest double is not modelled.
- The HTTP request to Nominatim is a parameter, `HttpResponse`: the results,
  already in `GeocodingResult` form, or a failure. The mapping of the raw
  JSON fields, the query parameters and the headers are not modelled. RxJS
  `Observable`s are plain return values.
- Local storage holds `Option<Stored>`. `Malformed` stands for text that
  `JSON.parse` rejects. `JSON.stringify` and the storage key's name are not
  modelled. A failing `setItem` (over quota) is the `writeFails` parameter.
- SearchHistory.StoredHistory: storage text that parses to something other than a list (`null`, an object, a number) is not modelled. `getSearchHistory` would return that value as is, and `addToHistory` and `removeFromHistory` would then throw. The service itself only ever writes lists.
- `Date.now()` and `new Date()` are one parameter, `now`. It is used both for
  the ids and for `createdAt`/`updatedAt`. Completion dates are kept as the
  text they are parsed from; `Date` parsing is not modelled.
- The `BehaviorSubject` of the process service is the `published` sequence.
  Subscribers see its last element.
- The process service's one-line delegates are not modelled separately:
  `getProcessTypeConfig`, `getStepStatusConfig`, `areInteractionsEnabled`,
  `getAvailableProcessTypes` and `isStaticMode`. The modelled configuration
  functions stand for them.
- The configuration's `timelineConfiguration` block and its getters are left
  out. So are `getApiBaseUrl`, `getApiEndpoints` and `getLocalizedMessages`.
  No core operation reads any of them.
- `getStepNodeStyles`, `getTimelineConfig` and `onStepNodeClick` of the
  timeline are left out. The click handler does nothing in static mode, and
  the other two return configuration values unchanged.
- The field `label` of a step, a step definition and a status configuration
  is called `fullLabel`, because `label` is a reserved word in Dafny.
- The map component's 25 fields are grouped. The four marker arrays are one
  `Layers` value. The three selected indices are one `Selection`. The four
  selects and the four search inputs are `PanelText` values. The four
  `available*` lists are one `PlaceLists`. Each method's `modifies` clause
  names the groups it writes.
