# L.cwis layer core, modelled in Dafny

`L.cwis(options)` is a Leaflet layer that shows current water conditions at
USGS monitoring sites. It asks the CWIS data service for recent
observations and draws one marker per site, coloured by a theme. The model
covers the following parts of that layer:

- building the OData request: a freshness prefilter, the built-in filter of
  the layer `type` and the user's required `filter`;
- the response handler: validation order, the error path, dropping
  duplicate sites, storing the data, redrawing, and the `onSuccess` and
  `onRefresh` callbacks;
- the theme resolver: `_themeColors`, `_themeShapes`, `_grayColors`,
  `_statusInfo`, `_floodInfo` and their threshold bins;
- the marker factory `_getMarker` and the `_redraw` loop;
- `setOptions`, `setRadius`, the refresh-timer guard and the add, remove
  and zoom handlers;
- the deep/shallow object `merge` utility;
- the shape-name parser of `_updateShape`;
- three helpers of the map page `js/map.js`: `numAddCommas`, the clock part
  of `formatDate` and the sorted, unique HUC8 list.

## Modules

- `wrappers.dfy` (Wrappers): `Option` and `Result`.
- `text.dfy` (Text): decimal rendering, JavaScript `trim`, `join` and ASCII lower-casing.
- `js_values.dfy` (JsValues): JavaScript values, truthiness and property reads.
- `deep_merge.dfy` (DeepMerge): `L.cwis.merge`.
- `distinct.dfy` (Distinct): the `findIndex` de-duplication filter and a scanning reference for it.
- `records.dfy` (Records): a site record and its site key.
- `query.dfy` (Query): the service URL.
- `themes.dfy` (Themes): the theme tables and threshold bins.
- `markers.dfy` (Markers): `_getMarker` and the `_redraw` loop.
- `shapes.dfy` (Shapes): shape aliases and `<N>gon` / `<N>star` / `<N>cross` names.
- `layer.dfy` (Layer): the layer state and its event handlers.
- `map_helpers.dfy` (MapHelpers): the `js/map.js` helpers.

## How the layer is modelled

- Each event handler is a function from a `Layer` value to an `Outcome`.
  An `Outcome` holds the new layer, the observable effects in order, and
  whether the handler ended by throwing.
- The observable effects are warnings, callback calls, requests sent and
  requests aborted.
- `Run` applies a sequence of events: refresh calls, responses,
  `setOptions`, `setRadius`, timer ticks, and add, remove and zoom events.
- The browser is a parameter (`Env`, `Host`). It supplies `toISOString`,
  `encodeURIComponent`, `L.Browser.mobile`, the user's callbacks and the
  built-in popup and tooltip text.
- The time is an argument of the events that need it.

JavaScript object identity matters in one place. `_refresh` captures
`layer.options` in a closure, and `setOptions` later replaces
`layer.options` with a new merged object. The model follows this with a
`version` counter: a pending request remembers the version it was made
under and, once that object is no longer the layer's own, a copy of it.

The built-in popup and tooltip are built inside `_getMarker`, outside its
`try` (L-cwis.js:557 and 561). A throw there leaves `_getMarker`, `_redraw`
and the response handler, so the remaining records get no marker and
`onSuccess` and `onRefresh` are not called. The popup throws on a status
code missing from `_statusInfo`. `NR_NOMEAS`, which the code comments list at
L-cwis.js:370, is one such code (`Markers.UndocumentedStatusStopsRedraw`).
The tooltip throws on a null `Value`, which the prefilter asks the service
not to return (L-cwis.js:342). `GetMarker` reports these throws as
`Crashed`, `Redraw` stops at the first one, and the layer's callback lemmas
cover the case where the redraw throws.

Every defect listed under Findings is modelled both ways. For the first
two rows (L-cwis.js:452-464 and L-cwis.js:486-490), the `Semantics`
parameter selects `AsWritten` (the code as it stands) or `Corrected`. The
third row (js/map.js:472-476) has two separate functions.
`MapHelpers.ClockOf` is the code as written, and
`MapHelpers.MidnightShowsHourZero` states its defect.
`MapHelpers.TwelveHourClock` is the corrected clock, and
`MapHelpers.TwelveHourClockHours` proves its property.

The error path clears the refresh interval (L-cwis.js:428-432), and no
code sets it again. A manual `refresh()` still fetches, but the timer stays
off (`Layer.TimerNeverRestarts`).

## Model

| member | source | states |
|---|---|---|
| DeepMerge.MergeProps | L-cwis.js:887-898 | every key of the target or the source is in the result; a key only the target has keeps its value; a source value that is not a plain object replaces the target's |
| DeepMerge.MergeInto | L-cwis.js:891 | the recursive call `merge(target[prop], obj[prop])` takes a boolean old value as the deep flag and drops it; otherwise the result has the old value's own keys and the source's; every non-object source value is copied as is |
| DeepMerge.MergeAll | L-cwis.js:902 | the argument loop: the keys are the target's plus every argument's own keys; a key no argument has keeps the target's value; the last argument's non-object values win |
| DeepMerge.Merge | L-cwis.js:877-905 | a leading boolean is the deep flag and contributes no keys; the result holds exactly the own keys of the other arguments, and the last one's non-object values win |
| DeepMerge.CopyIsMergeIntoEmpty | L-cwis.js:889-893 | merging into an undefined target, as the recursive call does for a new key, yields a structural copy of the source |
| DeepMerge.CopyIsIdentity | L-cwis.js:889-893 | that copy equals the original object |
| DeepMerge.MergeIntoIsMerge | L-cwis.js:891 | the recursive step `merge(target[prop], obj[prop])` is the two-argument merge |
| DeepMerge.MergeOntoObject | L-cwis.js:877-905 | `merge(obj, v)` is `v`'s own properties merged deeply into a copy of `obj` |
| DeepMerge.MergeSelfIsIdentity | L-cwis.js:877-905 | merging an object into itself gives the same object |
| DeepMerge.MergeTwoObjects | L-cwis.js:877-905 | `merge(a, b)`: the keys are the union; keys only in `a` keep their values; non-object values of `b` win; keys only in `b` are copied; keys holding objects on both sides are merged recursively |
| DeepMerge.ShallowMergeIsUnion | L-cwis.js:880-884 | with a leading `false` the merge is the map union in which later values replace earlier ones wholesale |
| Distinct.FindIndex | L-cwis.js:479 | the index found holds the key and no earlier element does; -1 means no element has the key |
| Distinct.FilterFirstFrom | L-cwis.js:478-480 | from any position the filter keeps a sub-multiset of the remaining elements: it drops records and never invents one |
| Distinct.FilterFirst | L-cwis.js:478-480 | the de-duplicated records are a sub-multiset of the response |
| Distinct.ScanKeys | L-cwis.js:478-480 | the scanning reference keeps distinct keys, none already seen, and exactly the keys of the input not seen before |
| Distinct.ScanKeepsFirst | L-cwis.js:478-480 | every element the scan keeps is the first input element with its key, and the result is a subsequence of the input |
| Distinct.FilterFirstFromIsScan | L-cwis.js:478-480 | from any position the `findIndex` filter equals the scan started with the keys of the prefix as seen |
| Distinct.FilterFirstIsScan | L-cwis.js:478-480 | the `findIndex` filter and the scanning reference produce the same sequence |
| Distinct.FilterFirstKeepsFirstOccurrences | L-cwis.js:477-480 | the de-duplicated records are a subsequence of the response with distinct site keys, the same set of keys, and each kept record is the first one with its key |
| Distinct.ScanKeepsDistinct | L-cwis.js:478-480 | input that already has distinct keys passes unchanged |
| Distinct.FilterFirstIdempotent | L-cwis.js:478-480 | de-duplicating twice equals de-duplicating once |
| Text.NatToString | L-cwis.js:446-447 | `n.toString()` is a non-empty run of digits, one digit exactly when `n < 10` |
| Text.DigitsValueOfNatToString | js/map.js:476 | reading a rendered number back gives the number |
| Text.TrimStart | L-cwis.js:437 | the removed prefix is whitespace and the rest starts with a non-whitespace character |
| Text.TrimEnd | L-cwis.js:437 | the removed suffix is whitespace and the rest ends with a non-whitespace character |
| Text.TrimEmptyIffBlank | L-cwis.js:437 | `s.trim() === ''` exactly when every character of `s` is JavaScript whitespace |
| Text.ToLowerAscii | L-cwis.js:1065 | lower-casing keeps the length, leaves no ASCII capital and no Kelvin sign, and keeps every other character in place |
| Text.ToLowerAsciiIdempotent | L-cwis.js:1065 | lower-casing twice equals lower-casing once |
| Query.CutoffMs | L-cwis.js:343 | the freshness cutoff is exactly four hours (14 400 000 ms) before now |
| Query.FilterClauses | L-cwis.js:435-442 | fails, with the "filter option must be specified" message, exactly when the user filter is missing or blank; otherwise the clauses are the prefilter, then the type filter when there is one, then the user filter |
| Query.BuildUrl | L-cwis.js:434-449 | the URL build fails exactly when the user filter is missing or blank, with that message |
| Query.ExpressionOfThreeClauses | L-cwis.js:444 | the filter expression parenthesises each clause and joins them with `and`, in list order |
| Query.ExpressionOfTwoClauses | L-cwis.js:444 | the same for a layer without a type filter |
| Query.TypeFilter | L-cwis.js:436 | the `typeFilters[options.type]` lookup; its domain is stated by `Query.TypeFilterDefined` |
| Query.TypeFilterDefined | L-cwis.js:347-353 | a type filter is added exactly for the types flow, stage, lake, well and rain, and it is never empty |
| Query.PreFilter | L-cwis.js:339-344 | `getPreFilter()`; its clauses and their order are stated by `Query.PreFilterIsExpression` and `Query.PreFilterEndsWithCutoff` |
| Query.PreFilterIsExpression | L-cwis.js:339-344 | the prefilter is the filter expression of four clauses: public access, primary instance, non-null value, then the freshness cutoff |
| Query.PreFilterEndsWithCutoff | L-cwis.js:343-344 | the prefilter ends with the clause `TimeUtc gt` followed by the cutoff time |
| Query.FilterExpression | L-cwis.js:444 | `'(' + filter.join(') and (') + ')'`; its shape is stated by `Query.FilterExpressionShape` and `Query.ExpressionEndsWithLast` |
| Query.FilterExpressionShape | L-cwis.js:444 | the expression opens and closes with a parenthesis, and a single clause is only wrapped |
| Query.ExpressionEndsWithLast | L-cwis.js:444 | with two or more clauses the expression ends with `) and (`, the last clause and `)`, so the user filter pushed last is the final conjunct |
| Query.ServiceUrl | L-cwis.js:443-449 | the service URL; its layout is stated by `Query.ServiceUrlLayout` |
| Query.ServiceUrlLayout | L-cwis.js:443-449 | the URL is the service address and `?`, then the encoded `$filter` parameter first and the `_` timestamp parameter last |
| Query.QueryShape | L-cwis.js:443-449 | a parameter list joined with `&` starts with its first parameter and ends with its last |
| Themes.InfoColors | L-cwis.js:594 | reading `.colors` of a status or flood entry throws exactly when the code's key is missing from the table, and never filters the record |
| Themes.FlowStatus | L-cwis.js:591-595 | the flow `status` theme checks in source order: zero flow gives the no-flow colours; otherwise a flood code of minor stage or above gives the flooding colours; only then is `_statusInfo` read, which throws exactly when the statistic code is missing; it never filters a record |
| Themes.StageStatus | L-cwis.js:612-615 | the stage `status` theme: a flood code of minor stage or above gives the flooding colours before `_statusInfo` is read; it throws exactly when the statistic code is then missing, and never filters |
| Themes.StageFlood | L-cwis.js:628-631 | no marker exactly when the flood code is null, NOFLOOD, NOMEAS or NA; otherwise it throws exactly when the code is missing from `_floodInfo` |
| Themes.StageNws | L-cwis.js:632-634 | every site is drawn; the theme throws exactly when the flood code is missing from `_floodInfo` |
| Themes.StatusTheme | L-cwis.js:637 | the lake `status` theme, and the identical well theme at line 660: throws exactly when the statistic code is missing from `_statusInfo`, and never filters |
| Themes.NullCodesHaveDefaults | L-cwis.js:742-760 | a record without a status or flood code gets the table's `null` entry colours |
| Themes.DocumentedStatisticCodes | L-cwis.js:731-744 | of the statistic codes listed in the comment at L-cwis.js:370, only `NR_NOMEAS` is missing from `_statusInfo` and makes the lookup throw |
| Themes.DocumentedFloodCodes | L-cwis.js:751-762 | every flood-stage code listed in the comment at L-cwis.js:371 resolves to colours |
| Themes.Bin | L-cwis.js:601-607 | the first-match bin index is at most the number of bounds |
| Themes.BinIsTheOnlyBin | L-cwis.js:601-607 | with strictly descending bounds a value lies in bin `i`, the interval (bounds[i], bounds[i-1]], exactly when `i` is the bin the cascade picks |
| Themes.ThresholdTablesWellFormed | L-cwis.js:601-711 | every threshold table is strictly descending and has one more colour pair than bounds |
| Themes.FlowCfs | L-cwis.js:596-608 | the `cfs` theme never throws |
| Themes.FlowCfs0 | L-cwis.js:609 | the `cfs0` theme never throws |
| Themes.RateTheme | L-cwis.js:620-626 | a rate cascade always yields colours |
| Themes.StageRate | L-cwis.js:616-627 | the stage `rate` theme never throws |
| Themes.LakeRate | L-cwis.js:638-649 | the lake `rate` theme never throws |
| Themes.WellRate | L-cwis.js:662-675 | the well `rate` theme never throws |
| Themes.WellDepth | L-cwis.js:676-687 | the `depth` theme never throws |
| Themes.RainColors | L-cwis.js:694-699 | the rain cascade always yields colours |
| Themes.RainRate | L-cwis.js:690-700 | the rain `rate` theme never throws |
| Themes.RainNon0 | L-cwis.js:701-711 | the `non0` theme never throws |
| Themes.Resolve | L-cwis.js:588-714 | a type or theme missing from `_themeColors` throws |
| Themes.ResolveThrowsOnlyOnMissingCodes | L-cwis.js:588-714 | a defined theme throws only when a status or flood code is missing from its table |
| Themes.TableThrowsOnlyOnMissingCodes | L-cwis.js:588-714 | the same for each type's table of themes |
| Themes.ThresholdThemesNeverThrow | L-cwis.js:596-711 | none of the eight threshold themes ever throws |
| Themes.FlowThresholdThemes | L-cwis.js:590-610 | `_themeColors.flow.cfs` and `.cfs0` are the cfs functions |
| Themes.DepthAndRainThemes | L-cwis.js:676-711 | `well.depth`, `rain.rate` and `rain.non0` are the depth and rain functions |
| Themes.RateThresholdThemes | L-cwis.js:616-675 | `stage.rate`, `lake.rate` and `well.rate` are the rate functions |
| Themes.EveryThemedTypeHasAShape | L-cwis.js:573-581 | every type with a theme has a default shape |
| Themes.FlowCfsBins | L-cwis.js:596-608 | `cfs`: no marker without a value; gray unless the unit is ft3/s; otherwise the colour of the bin of the absolute flow |
| Themes.FlowCfs0ShowsOnlyZeroFlow | L-cwis.js:609 | `cfs0` draws exactly the zero-flow sites, in the no-flow colours, and filters every other record |
| Themes.RateThemeBins | L-cwis.js:620-626 | a rate cascade gives the palette entry of the value's bin |
| Themes.RateThemesBins | L-cwis.js:616-675 | the three rate themes: no marker without a rate; gray for a unit other than ft; otherwise the bin of the rate, and for wells the rate in inches per hour, negated for depth-to-water parameter 72019 |
| Themes.WellDepthBins | L-cwis.js:676-687 | `depth`: no marker without a value; gray unless the parameter is 72019; otherwise the bin of the absolute depth |
| Themes.RainColorsBins | L-cwis.js:694-699 | the rain cascade gives the palette entry of the value's bin |
| Themes.RainThemesBins | L-cwis.js:689-711 | rain `rate` bins every rate and grays other parameters; `non0` filters missing and non-positive rates |
| Markers.Or | L-cwis.js:550 | `a \|\| b` is truthy exactly when either operand is |
| Markers.And | L-cwis.js:551 | `a && b` is truthy exactly when both operands are |
| Markers.ThemedStyleUnderUser | L-cwis.js:531-550 | on a placed marker the theme's colours, shape and radius 6 hold wherever the user's marker options do not name them, and a non-object value the user gives wins |
| Markers.UserMarkerOptions | L-cwis.js:544-546 | only a `markerOptions` function can filter a record out (exactly when its result is falsy); without a function the properties merged over the theme are those of `markerOptions` itself |
| Markers.Theme | L-cwis.js:527-541 | no theme step unless type and theme are both truthy; the step is invalid exactly when the lookup throws; a styled result carries the theme colours and the type's shape |
| Markers.MarkerStyle | L-cwis.js:543-550 | the marker options hold the themed and user keys plus `interactive`; the user's non-object values win; untouched themed values are kept |
| Markers.Bind | L-cwis.js:556-563 | once the content is computed without a throw, a popup or tooltip is bound only when its setting and its content are truthy, with the given options; built-in content binds exactly when it is non-empty |
| Markers.PopupDescriptions | L-cwis.js:780-796 | the popup template throws exactly when a status code it describes (non-null, not a well level) is missing from `_statusInfo`, or a flood code starting with `>` is missing from `_floodInfo`; otherwise it shows those entries' descriptions, status first |
| Markers.GetMarker | L-cwis.js:523-566 | a record is skipped as theme-rejected exactly when its theme filters it, as invalid exactly when the theme lookup throws, and as user-rejected exactly when the user's options are falsy; past those filters the factory throws exactly when `tooltipOptions` is null or undefined, the built-in popup cannot describe the record, or the built-in tooltip (not on mobile) meets a null `Value` |
| Markers.Redraw | L-cwis.js:507-516 | at most one marker and at most one invalid-theme warning per record; a throw leaves at least one record without a marker; no option changes except `tooltipOptions` |
| Markers.NoMarkerCases | L-cwis.js:527-546 | no marker exactly when the theme filters the record, the theme lookup throws, or the user's marker options (or their function's result) are falsy |
| Markers.PlacedStyle | L-cwis.js:531-554 | a placed marker's style merges the user's options over the theme's, has `interactive` set to `popup \|\| tooltip`, and sits at the record's position |
| Markers.FlowCfsTheme | L-cwis.js:527-541 | the flow/cfs theme step: no marker without a value, otherwise a circle in the bin's colours, or gray for other units |
| Markers.NoUserOptionsKeepTheme | L-cwis.js:544-547 | with empty user marker options the style is the themed style plus `interactive` |
| Markers.Bindings | L-cwis.js:556-563 | no tooltip on mobile devices; a popup exactly when `popup` is truthy and its content is truthy |
| Markers.GetMarkerIgnoresTooltipInteractive | L-cwis.js:551 | replacing one `tooltipOptions` object with another changes neither whether a marker is placed nor whether the factory throws |
| Markers.PlacedAt | L-cwis.js:554 | a placed marker is at the record's latitude and longitude; an object `tooltipOptions` stays an object |
| Markers.RedrawMarksAcceptedRecords | L-cwis.js:507-516 | the loop throws exactly when the factory throws on some record, and the markers are at the positions of the records the factory accepts before that record, in order |
| Markers.CrashesOnIgnoresTooltipInteractive | L-cwis.js:551 | whether the factory throws on some record does not depend on the `tooltipOptions` object the loop rewrites |
| Markers.PopupLookupStopsFactory | L-cwis.js:782-785 | with the built-in popup, a record that passes the filters but whose status code is missing from `_statusInfo` makes the factory throw |
| Markers.UndocumentedStatusStopsRedraw | L-cwis.js:782-785 | a flow record with code `NR_NOMEAS` under the `cfs` theme and the built-in popup makes the factory throw, so a redraw starting with it ends with no markers |
| Markers.CrashOnFirstStops | L-cwis.js:510-513 | a throw on the first record ends the loop with no markers |
| Markers.CfsStylesValuedRecords | L-cwis.js:527-541 | the flow/cfs theme styles every record that has a value |
| Markers.PlacedRecordsIgnoreTooltipInteractive | L-cwis.js:507-516 | which records get markers does not depend on the `tooltipOptions` object the loop rewrites |
| Shapes.ParseShape | L-cwis.js:1065-1093 | only an alias gives a non-zero rotation |
| Shapes.BaseOutline | L-cwis.js:1077-1093 | the `gon`, `star` and `cross` patterns are tried in that order, each giving its outline with the count read from the name (twice the count for a star, so always even); a name matching none is a circle |
| Shapes.CountedNameRoundTrip | L-cwis.js:1077-1089 | a rendered count followed by a base suffix matches `/^[0-9]+suffix$/` and `parseFloat` reads the count back |
| Shapes.AliasesStartWithLetters | L-cwis.js:1042-1064 | no name starting with a digit is an alias |
| Shapes.CountedName | L-cwis.js:1065-1089 | a rendered count followed by a lower-case suffix is already lower case, is no alias, matches the counted pattern and reads back its count |
| Shapes.GonOutline | L-cwis.js:1077-1080 | the base name `<N>gon` is an N-gon |
| Shapes.StarOutline | L-cwis.js:1081-1084 | the base name `<N>star` is a star with 2N vertices |
| Shapes.CrossOutline | L-cwis.js:1085-1088 | the base name `<N>cross` is a cross with N arms |
| Shapes.ParseGon | L-cwis.js:1077-1080 | `<N>gon` draws an unrotated N-gon at 1.3 times the radius, for every N |
| Shapes.ParseStar | L-cwis.js:1081-1084 | `<N>star` draws an unrotated star with 2N vertices at 1.6 times the radius |
| Shapes.ParseCross | L-cwis.js:1085-1088 | `<N>cross` draws an unrotated cross with N arms at the plain radius |
| Shapes.ParseShapeIgnoresCase | L-cwis.js:1065 | shape names are case-insensitive |
| Shapes.ParseAlias | L-cwis.js:1042-1068 | every alias names a base shape the parser recognises, and a lower-case alias draws that base shape with the alias rotation |
| Shapes.CircleShape | L-cwis.js:1091-1093 | `circle` is no alias and no counted name, so it draws a circle |
| Shapes.DefaultTypeShapes | L-cwis.js:1045-1050 | the lake, well and rain default shapes: a square (a 4-gon turned by pi/4), an upward triangle and a diamond |
| Shapes.RotatedAliases | L-cwis.js:1046-1062 | `triangle-d` is a 3-gon turned by pi, `octagon` an 8-gon turned by pi/8, `x` a 4-cross turned by pi/4 |
| Shapes.StarAlias | L-cwis.js:1058 | `star` is a five-pointed star |
| Shapes.AsteriskAlias | L-cwis.js:1063 | `asterisk` is a six-armed cross |
| Shapes.UnicodeCaseVariants | L-cwis.js:1077-1088 | the case-insensitive Unicode match accepts a long s in `star`, and the Kelvin sign lower-cases into `asterisk` |
| MapHelpers.FirstLongRun | js/map.js:454 | a match of `/(\d+)(\d{3})/` starts a run of four or more digits |
| MapHelpers.FirstLongRunIsLeftmost | js/map.js:454 | no earlier position starts such a run |
| MapHelpers.InsertComma | js/map.js:455 | one replacement adds exactly one character |
| MapHelpers.NumAddCommas | js/map.js:451-459 | the loop ends with the digits grouped in threes after the sign, no match left, and the commas removed giving `n.toString()`; numbers between -1000 and 1000 are unchanged |
| MapHelpers.GroupedResult | js/map.js:454-457 | the grouped form reads back to the number, and is the number itself below 1000 in absolute value |
| MapHelpers.LoopStep | js/map.js:454-456 | the loop test holds exactly while the first digit group is four or more long, and one replacement moves the comma-led part three digits left |
| MapHelpers.SignShift | js/map.js:454-455 | a leading minus sign never takes part in the match |
| MapHelpers.ShortHasNoLongRun | js/map.js:454 | a short first group followed by comma-led blocks of three has no match |
| MapHelpers.LongHasRunAtStart | js/map.js:454 | a first group of four or more digits is where the pattern matches |
| MapHelpers.InsertCommaStep | js/map.js:455 | the greedy `\d+` puts the new comma three digits before the first existing one |
| MapHelpers.GroupedRemoveCommas | js/map.js:451-459 | removing the separators from the grouped digits gives back the digits |
| MapHelpers.NatToStringShort | js/map.js:451-459 | numbers below 1000 have at most three digits and need no separator |
| MapHelpers.Minutes | js/map.js:479-481 | minutes always show as two digits |
| MapHelpers.ClockOf | js/map.js:472-476 | the hour shows as one or two digits; the marker is PM exactly from noon on |
| MapHelpers.ClockHours | js/map.js:472-481 | the hour shown is the 24-hour hour, less 12 for hours 13 to 23, and the minutes read back |
| MapHelpers.MinutesValue | js/map.js:479-481 | the two-digit minutes read back to the minutes |
| MapHelpers.ClockRoundTrip | js/map.js:472-484 | hour, minutes and AM/PM together give back the time of day |
| MapHelpers.MidnightShowsHourZero | js/map.js:472-476 | as written, 00:08 shows as `0:08 AM` |
| MapHelpers.TwelveHourClock | js/map.js:472-476 | the corrected clock shows one or two digits, and PM exactly from noon on |
| MapHelpers.TwelveHourClockHours | js/map.js:472-476 | the corrected clock shows hours 1 to 12 only, agrees with the code except in hour 0, and still reads back |
| MapHelpers.FormatDate | js/map.js:466-486 | the result is 9 or 10 characters longer than the date text, and splits back into the date text and the clock as written |
| MapHelpers.FormatDateRoundTrip | js/map.js:466-486 | as written, the date text, the hours and the minutes are read back from the formatted string |
| MapHelpers.FormatDateTwelveHour | js/map.js:466-486 | the corrected format has the same layout, with the twelve-hour clock in place of the clock as written |
| MapHelpers.FormatDateTwelveHourRoundTrip | js/map.js:472-486 | the corrected format equals the code's except in hour 0, shows hours 1 to 12, and reads back when 12 AM is taken as midnight |
| MapHelpers.CodeUnitLessIrreflexive | js/map.js:344 | the default sort order puts no string before itself |
| MapHelpers.CodeUnitLessTransitive | js/map.js:344 | the default sort order is transitive |
| MapHelpers.CodeUnitLessTotal | js/map.js:344 | of two different strings, one sorts before the other |
| MapHelpers.Insert | js/map.js:344 | insertion keeps the list strictly sorted and adds exactly the new code |
| MapHelpers.SortCodes | js/map.js:344 | sorting a duplicate-free list gives a strictly sorted permutation of it |
| MapHelpers.SortedUniqueHuc8s | js/map.js:340-344 | the HUC8 list is strictly sorted, free of duplicates, and holds exactly the input codes |
| Layer.Create | L-cwis.js:229-237 | a new layer has the default and user keys, no data or request, the timer set, is on no map, and warns about unknown keys |
| Layer.Unrecognized | L-cwis.js:229-233 | no warning exactly when every key is a valid option |
| Layer.ReadFilter | L-cwis.js:437 | a falsy filter is missing; a truthy string is read as text; any other truthy value has no `trim` and throws |
| Layer.Fail | L-cwis.js:428-432 | the error path: a service warning first, `onError` exactly when it is a function, the timer cleared, nothing else changed |
| Layer.Abort | L-cwis.js:452-464 | corrected, an abort only drops the request; either way options, data and the pending request stay as they were |
| Layer.Send | L-cwis.js:451-497 | a new request under the current options becomes the pending one, the last effect is the request sent, and nothing else but the timer changes |
| Layer.Refresh | L-cwis.js:423-449 | options, data and markers are kept; a request is sent exactly when the filter is a non-blank string; the handler throws exactly for a truthy non-string filter |
| Layer.RedrawLayer | L-cwis.js:507-516 | a redraw keeps data, request and timer; without data it clears the markers and throws |
| Layer.Succeed | L-cwis.js:486-493 | the success tail changes no option except removing `onSuccess`, and keeps data, markers and timer |
| Layer.Respond | L-cwis.js:454-494 | a response never sets the timer again, and either ends the pending request or leaves it alone; its success path throws when the redraw does |
| Layer.Accept | L-cwis.js:473-493 | a valid response keeps the timer and the request bookkeeping |
| Layer.Settle | L-cwis.js:473-493 | the callbacks after the redraw keep the timer and the request bookkeeping |
| Layer.SetOptions | L-cwis.js:288-298 | options are replaced by a new object; the timer is never set again; the pending request stays the latest one; without a refresh the data and timer are kept (its effects are stated by `Layer.SetOptionsCallbacks`) |
| Layer.SetOptionsCallbacks | L-cwis.js:288-298 | `setOptions` warns first about keys that are not options and itself calls neither `onSuccess` nor `onRefresh`; without a refresh it emits nothing but that warning and theme warnings, so no error handler runs |
| Layer.Replace | L-cwis.js:296 | a new options object; a request in flight keeps the object it captured |
| Layer.ReplaceKeepsHandlerOptions | L-cwis.js:425 | the handler of a request in flight keeps reading the options object `_refresh` captured when `setOptions` replaces `layer.options` |
| Layer.HandlerOptions | L-cwis.js:486-490 | the options object a response handler reads: the layer's own while it is still the captured one, otherwise the captured copy; `Layer.ReplaceKeepsHandlerOptions` states that `setOptions` does not change it |
| Layer.Reload | L-cwis.js:297 | refresh or redraw; without a refresh the data and timer are kept and only theme warnings come out; neither path calls `onSuccess` or `onRefresh` |
| Layer.Clamp | L-cwis.js:268 | the clamped zoom lies in [3, 8] and values already there are kept |
| Layer.Resize | L-cwis.js:273-275 | a falsy radius leaves the markers as they are, a truthy one becomes every marker's radius, and nothing but the radius of a marker changes |
| Layer.SetRadius | L-cwis.js:264-276 | no effects; only `markerOptions` and the markers can change |
| Layer.AddToMap | L-cwis.js:401-405 | adding never sets the timer again, and the pending request stays the one with the last id issued, made under the current or an earlier options object |
| Layer.StepWith | L-cwis.js:389-410 | no event sets a cleared timer again, and after every event the pending request is the one with the last id issued, made under the current or an earlier options object |
| Layer.RefreshWithoutFilter | L-cwis.js:437-442 | a missing or blank filter takes the error path with the filter message, sends nothing and clears the timer |
| Layer.RefreshSends | L-cwis.js:443-497 | with a usable filter, the request for that URL is sent last and becomes the pending one |
| Layer.SendCorrected | L-cwis.js:452-453 | corrected, sending keeps the timer and emits only the abort and the send |
| Layer.RefreshKeepsTimer | L-cwis.js:452-453 | corrected, a refresh during a request aborts it silently and keeps the timer |
| Layer.SendAsWritten | L-cwis.js:452-464 | as written, aborting a request runs its error path: a service error, `onError`, and the timer cleared |
| Layer.RefreshDuringRequestStopsTimer | L-cwis.js:452-464 | as written, a refresh while a request is out clears the timer and reports a service error |
| Layer.StaleResponseIgnored | L-cwis.js:452-455 | a response for a request that is not the pending one changes nothing |
| Layer.Rejection | L-cwis.js:458-472 | a response with a value array and no error message is not rejected; a rejection message is truthy |
| Layer.RejectedResponse | L-cwis.js:458-472 | a rejected response leaves data, markers and options alone, reports the error, calls `onError` when it is a function, and clears the timer |
| Layer.NullResponseThrows | L-cwis.js:465 | a `null` body throws and changes nothing but ending the request |
| Layer.RedrawLayerDraws | L-cwis.js:507-516 | with data, the redraw takes the markers and options the loop leaves, emits no callback, and changes no option but `tooltipOptions` |
| Layer.SettleCallbacks | L-cwis.js:473-493 | the cap warning is given exactly when the site cap was reached; when the redraw finished, `onRefresh` is called exactly when the request's options hold a function, and `onSuccess` exactly when the options it is read from hold one (the request's as written, the layer's own when corrected); when the redraw threw, neither `onRefresh` nor `onSuccess` is called |
| Layer.AcceptedResponseStores | L-cwis.js:477-484 | an accepted response stores the records with duplicate sites dropped, draws them, ends the request and keeps the timer |
| Layer.AcceptedResponseCallbacks | L-cwis.js:473-493 | an accepted response warns when there are 800 or more records; when the redraw finished it calls `onRefresh` exactly when it is a function, and `onSuccess` exactly when it is a function in the request's options (as written) or the layer's options (corrected); when the redraw threw it calls neither `onRefresh` nor `onSuccess` |
| Layer.AcceptedResponseThrows | L-cwis.js:473-493 | an accepted response throws exactly when the marker factory throws on one of the stored records, and keeps the markers of the records accepted before it |
| Layer.CreateMergesDefaults | L-cwis.js:237 | every default the user does not override is kept, and the user's non-object values win |
| Layer.ReplaceMerges | L-cwis.js:296 | after `setOptions` the options hold the old and new keys; untouched keys keep their values; new non-object values win |
| Layer.SetOptionsRefreshesIff | L-cwis.js:294-297 | `setOptions` sends a request exactly when a new truthy filter or type differs from the current one and the merged filter is usable; when a refresh is due the merged options are kept and the markers untouched until the response; otherwise data, timer and request bookkeeping stay as they were |
| Layer.AutoSizeRadius | L-cwis.js:267-268 | with a numeric `autoSize` k on a map, the stored radius is k times the zoom less 2 held to [3, 8]: it lies between 3k and 8k and is k(zoom - 2) for zooms 5 to 10; nothing throws, and for k > 0 every marker takes it |
| Layer.SetRadiusCases | L-cwis.js:264-276 | `autoSize` false without an argument does nothing; an `autoSize` that needs the zoom throws off a map; a function `autoSize` decides the radius; otherwise the argument is stored; a null or undefined `markerOptions` throws |
| Layer.TickGuard | L-cwis.js:392-397 | a tick refreshes exactly when the timer is set, auto refresh is on, the layer is on a map and no popup is open; otherwise it changes nothing |
| Layer.TickRefreshes | L-cwis.js:394 | the tick guard; `Layer.TickGuard` states that a tick changes nothing unless it holds, and sends a request exactly when it holds and the filter is usable |
| Layer.UsableFilter | L-cwis.js:437 | the filter is a string that is not blank after `trim`; `Layer.TickGuard` and `Layer.AddFetchesOnce` send exactly when it holds |
| Layer.NeedRefresh | L-cwis.js:294 | a refresh is due only when `filter` or `type` is among the changes, and never when every change repeats the current value |
| Layer.DetachedLayerIsIdle | L-cwis.js:392-410 | a layer on no map ignores timer ticks and zoom changes |
| Layer.ZoomEndTracksMap | L-cwis.js:264-270 | on a map, a zoom change is always recorded, since `setRadius` reads the map's zoom afresh; with the `zoomend` handler registered the radius is recomputed, and without it nothing else happens |
| Layer.AddFetchesOnce | L-cwis.js:401-403 | adding to a map fetches exactly when there is no data yet and the filter is usable |
| Layer.TimerNeverRestarts | L-cwis.js:389-397 | once cleared, the refresh timer stays cleared over any sequence of events |
| Layer.RunKeepsValid | L-cwis.js:452-453 | over any sequence of events the pending request is the one with the last id issued, so an older response is never taken for it |
| Layer.Run | L-cwis.js:389-410 | events applied in order; `Layer.TimerNeverRestarts`, `Layer.RunKeepsValid` and `Layer.OnSuccessAtMostOnce` state its properties |
| Layer.Fired | L-cwis.js:486-490 | the number of `onSuccess` calls is zero exactly when there is none |
| Layer.RedrawLayerKeepsOnSuccess | L-cwis.js:507-516 | a redraw neither calls nor removes `onSuccess` |
| Layer.SucceedSpends | L-cwis.js:486-490 | corrected, a success tail that calls `onSuccess` also removes it |
| Layer.SettleSpends | L-cwis.js:486-490 | the same for the whole tail after the redraw |
| Layer.RespondSpends | L-cwis.js:454-494 | corrected, no response calls `onSuccess` without removing it |
| Layer.ReplaceSpends | L-cwis.js:296 | merging options that bring no new `onSuccess` function adds none |
| Layer.SetOptionsSpends | L-cwis.js:288-298 | corrected, such a `setOptions` never calls `onSuccess` more often than it removes it |
| Layer.SetRadiusKeepsOnSuccess | L-cwis.js:264-276 | `setRadius` leaves `onSuccess` alone |
| Layer.AddSpends | L-cwis.js:401-405 | corrected, adding to a map never calls `onSuccess` without removing it |
| Layer.StepSpends | L-cwis.js:389-410 | corrected, no event except a `setOptions` that installs a new function calls `onSuccess` without removing it |
| Layer.OnSuccessAtMostOnce | L-cwis.js:486-490 | corrected, over any run in which no new `onSuccess` is installed, it is called at most once, and not at all if it is later still armed |
| Layer.EmptyResponse | L-cwis.js:469-493 | an empty value array is accepted with no records and no markers |
| Layer.SuccessForCurrentOptions | L-cwis.js:486-490 | a success for the current options object calls `onSuccess` once when the layer has one |
| Layer.StaleSuccessKeepsOnSuccessAsWritten | L-cwis.js:486-490 | as written, a success for a request made under replaced options calls the old object's `onSuccess` and leaves the layer's options, `onSuccess` included, unchanged |
| Layer.StaleSuccessUsesOnSuccess | L-cwis.js:486-490 | corrected, the same success calls the layer's `onSuccess` once and removes it |
| Layer.RedrawLayerKeeps | L-cwis.js:507-516 | a redraw keeps every option but `tooltipOptions`, keeps the pending request, and calls no `onSuccess` |
| Layer.QuietRedraw | L-cwis.js:296-297 | redrawing merged options that touch neither filter nor `onSuccess` keeps both, keeps the request bookkeeping, and calls no `onSuccess` |
| Layer.QuietSetOptions | L-cwis.js:288-298 | a `setOptions` that touches neither filter, type nor `onSuccess` sends nothing, keeps `filter` and `onSuccess`, and calls no `onSuccess` |
| Layer.OnSuccessSurvivesAsWritten | L-cwis.js:486-490 | as written, such a `setOptions` during a request followed by that request's success calls `onSuccess` and leaves it armed for the next success |

## Left out

- XMLHttpRequest, `setInterval`, the Leaflet map and the DOM are not modelled as code. Requests become `RequestSent` and `RequestAborted` effects plus a `Response` event. The interval becomes the `timerArmed` flag and `Tick` events. Whether a popup is open anywhere on the page is a boolean on the tick.
- `Date.now`, `toISOString` and `encodeURIComponent` are inputs (`nowMs`, `Env.toIso`, `Env.encode`). Both `Date.now()` calls of one refresh read the same `nowMs`.
- The text of the popup and tooltip templates (`_getPopupContent`, `_getTooltipContent`, L-cwis.js:769-866) is a host function. When they throw is modelled: the table lookups of the popup (`Markers.PopupDescriptions`) and the null `Value` of the tooltip (`Markers.TooltipThrows`). Record fields the model types as strings (`SiteName`, `TimeLocal`) are never null, so the template throws on a null one of them are not modelled.
- Leaflet rendering is not modelled: the SVG path geometry of `_updateShape` (the sines and cosines), `setStyle` beyond the radius, and `clearLayers`/`addLayer`. A marker is a value with a position, a style, a radius and its bindings, and shape rotations are kept as multiples of pi.
- Layer.SetOptions: its own contract does not list the effects of the call. `Layer.SetOptionsCallbacks` states them. The callbacks of a refresh it starts come with that request's response, and `Layer.AcceptedResponseCallbacks` states those.
- `setOpacity` (L-cwis.js:245-252), the rest of `js/map.js` and `CSGsites.js` are outside the modelled core.
- Callbacks are effects. A callback that changes the layer while it runs (`onSuccess`, `onRefresh`, `onError`, a `markerOptions` function, an `autoSize` function, popup and tooltip functions) is not modelled. A user function's result is a host input.
- Layer.Unrecognized: gives one effect carrying the set of unknown keys, not one console warning per key in key order.
- Layer.Create: takes an options object. `L.cwis()` with no argument throws on `Object.keys(undefined)` before the merge; that case is not modelled.
- Layer.NeedRefresh compares values structurally where the source uses `!==`. This differs only for object-valued `filter` or `type` options, which the source does not expect.
- DeepMerge.Merge: `for ... in` over a string or array argument would copy its index keys, and a class instance counts as a plain object. The model reads own properties of plain objects only and ignores inherited ones.
- Markers.Theme: a non-string `type` or `theme` names no table entry, so the step is invalid. In JavaScript, a value such as `['flow']` is converted to the key `flow`.
- Layer.Respond: the elements of `json.value` are taken to be site records. An array of other values, which makes `_redraw` or the de-duplication read missing fields, is not modelled.
- Themes.Resolve: only the tables' own keys are looked up. Names `_themeColors` inherits from `Object.prototype` are not modelled: in the source a `theme` of `hasOwnProperty`, `isPrototypeOf` or `propertyIsEnumerable` returns a boolean that filters the record or places a marker, `toString` returns a string whose index keys `Object.assign` copies into the marker options, and `constructor` returns the record itself, which is then modified. The same holds for status and flood codes that name such properties in `_statusInfo` and `_floodInfo` (`Markers.PopupDescriptions`).
- Query.TypeFilter: only the keys of `_typeFilters` give a type filter. A `type` naming a property inherited from `Object.prototype`, such as `toString`, is truthy in the source and splices the function's source text into the query (L-cwis.js:435-449); this is not modelled.
- Themes.Resolve: the theme functions return shared colour objects, and `Object.assign` adds `shape`, `radius`, `weight` and `fillOpacity` to them in place. Every use overwrites those four keys, so no marker sees a difference, and the model builds a fresh style.
- Themes.WellRate: numbers are exact reals. The source's IEEE doubles round when the response is parsed and in the product by 12 (L-cwis.js:662-675), so a rate within the last binary digit of a bin bound can fall in the neighbouring bin.
- Layer.AutoSizeRadius: the same holds for the product of `autoSize` and the clamped zoom (L-cwis.js:268). The real-number radius can differ from the double in its last binary digit.
- Shapes.ParseShape: counts are exact natural numbers. `parseFloat` would round digit strings longer than about 15 digits.
- MapHelpers.NumAddCommas takes an integer and returns a string. The source returns its argument unchanged (a number, not a string) when no separator is needed. It also renders non-integers and values of 1e21 or more differently (decimal point, exponent); these are not modelled.
- MapHelpers.SortedUniqueHuc8s orders strings by Unicode scalar value, where JavaScript compares UTF-16 code units. The two orders agree on the digit-only HUC8 codes.
- `formatDate`'s `toDateString()` and the local hours and minutes are inputs.

## Findings

| source | as written | input that shows it | evidently intended | confidence | as-written member | corrected member |
|---|---|---|---|---|---|---|
| L-cwis.js:452-464 | `abort()` on the outstanding request fires that request's `readystatechange` at once, in state DONE with an empty body. The old handler's `JSON.parse('')` fails, so its error path runs: a service error, `onError`, and the refresh timer cleared for good | a layer whose request is still loading gets `layer.refresh()`, or `setOptions` with a new filter | the superseded request is dropped silently and auto refresh goes on | not executed | Layer.RefreshDuringRequestStopsTimer | Layer.RefreshKeepsTimer |
| L-cwis.js:486-490 | `onSuccess` is read from and deleted from the options object `_refresh` captured. After `setOptions` replaced `layer.options` with a merged copy, the copy keeps `onSuccess`, so the next success calls it again | `L.cwis({filter, onSuccess})` is added to a map; `setOptions({markerOptions: {...}})` runs before the first response; the response succeeds, then a refresh succeeds | `onSuccess` runs once, after the first successful load | not executed | Layer.OnSuccessSurvivesAsWritten | Layer.OnSuccessAtMostOnce |
| js/map.js:472-476 | hours after noon lose 12, but hour 0 is kept, so the first hour after midnight shows as hour 0 | a date at 00:08 local time gives `..., 0:08 AM` | `12:08 AM`, on a twelve-hour clock showing 1 to 12 | not executed | MapHelpers.MidnightShowsHourZero | MapHelpers.TwelveHourClockHours |
