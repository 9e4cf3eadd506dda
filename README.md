# Disaster alert dashboard — a Dafny model of its core

The dashboard is a React single-page application. It holds a list of mock
disaster events: earthquakes, floods, hurricanes, tornadoes and wildfires.
It classifies their severity and lists the critical and the recent ones. It
shows nearby shelters with an occupancy badge and safety tips in two
languages. It accepts incident reports and keeps a mock user session in
`localStorage`.

This project models the logic behind those screens, one module per source
file:

- `Types` holds the records of `src/types/index.ts`.
- `Api` holds the severity classifier and the minute-window rate limiter of
  `src/utils/api.ts`.
- `Geolocation` holds the radius test and the mapping of browser answers of
  `src/utils/geolocation.ts`.
- `Disasters` holds the mock feed, the hook's classifier and the
  newest-first ordering of `src/hooks/useDisasters.tsx`. The sort is an
  in-place sort on an array.
- `Shelters` holds the search, the nearby filter, the distance label, the
  occupancy badge and the empty-state message of the shelter list.
- `SafetyTips` holds the language filter and the ordered, de-duplicated
  disaster-type tabs.
- `Dashboard` and `Index` hold the two pages:
  - the critical and recent lists;
  - `formatNumber`;
  - the sidebar slices;
  - page state (selection, tab, theme).
- `ReportIncident` holds the report form's validation, image list and submit
  life cycle.
- `Auth` holds the session provider: restore on mount, login, logout,
  registration and the preference merge. `localStorage` is a map field.

Shared helpers:

- `Wrappers` defines `Option` and `Result`.
- `Seqs` models `filter`, `slice(0, k)` and `Array.from(new Set(..))`.
- `NumberText` models `Number.prototype.toString` on the naturals the
  program formats (list lengths and `Date.now()` values), all far below 2^53.

State the components keep with `useState`, and the module-level counters of
the rate limiter, are class fields. Each method of those classes states its
whole new state. Pure helpers are functions, with lemmas about them.

Several inputs come from outside the program and are parameters:

- the current time (`now`, `t0`);
- the browser's geolocation answer and whether geolocation is supported;
- the haversine distance (`dist`);
- `parseFloat` (`parse`);
- the user's choice of callback outcome.

## Model

| member | source | states |
|---|---|---|
| Seqs.Filter | src/pages/Dashboard.tsx:32-40 | `filter` keeps exactly the elements satisfying the predicate, in order, never growing the list |
| Seqs.FilterCounts | src/pages/Dashboard.tsx:32-40 | every kept element keeps its multiplicity; every rejected one is gone |
| Seqs.FilterConcat | src/components/safety/SafetyTips.tsx:129 | filtering the concatenation of two lists is concatenating their filters |
| Seqs.FilterAgainStronger | src/pages/Dashboard.tsx:37-40 | filtering again by a stronger predicate equals filtering once by it |
| Seqs.FilterCommute | src/pages/Dashboard.tsx:32-40 | two filters applied in either order give the same list |
| Seqs.FilterKeepsAll | src/components/safety/SafetyTips.tsx:129 | a filter whose predicate holds of every element returns the list unchanged |
| Seqs.Prefix | src/pages/Dashboard.tsx:225 | `slice(0, k)` has length min(len, k) and agrees with the list on that prefix |
| Seqs.FirstIndex | src/components/safety/SafetyTips.tsx:132 | the index returned holds the element and no earlier index does |
| Seqs.Distinct | src/components/safety/SafetyTips.tsx:132 | `Array.from(new Set(s))` has no repeats, the same members as `s`, and keeps first-occurrence order |
| Seqs.DistinctOfNoDuplicates | src/components/safety/SafetyTips.tsx:132 | a list without repeats is unchanged by `Array.from(new Set(..))` |
| Api.ClassifyApi | src/utils/api.ts:77-94 | the classifier never answers "low", and every type other than earthquake, flood, hurricane and tornado is "moderate" |
| Api.EarthquakeTiers | src/utils/api.ts:78-81 | with a magnitude: critical iff >= 6, high iff in [4.5, 6), moderate iff < 4.5 |
| Api.FloodAndWindTiers | src/utils/api.ts:83-91 | flood: critical iff water level > 3, high iff in (2, 3]; hurricane/tornado: critical iff wind > 110, high iff in (74, 110]; moderate otherwise |
| Api.BoundaryExamples | src/utils/api.ts:78-91 | the thresholds at and next to each boundary land on the stated side |
| Api.AbsentReadingIsModerate | src/utils/api.ts:93 | a record without readings classifies as moderate whatever its type |
| Api.ClassifyApiMonotone | src/utils/api.ts:77-94 | larger readings never give a lower severity |
| Api.CheckRateLimit | src/utils/api.ts:161-177 | allowed iff fewer than 5 requests in the current window; an allowed call counts one more; a refused call changes nothing; resetIn is the time left and never negative; the count never exceeds 5 |
| Api.ResetRule | src/utils/api.ts:164-168 | a call after the window's end opens a new 60000 ms window; a call at the exact end does not |
| Api.QuotaWithinWindow | src/utils/api.ts:161-177 | any run of calls inside one window is allowed at most 5 − (requests already counted) times and leaves the window unchanged |
| Api.AtMostFivePerWindow | src/utils/api.ts:161-177 | a call that opens a window, followed by calls inside it, is allowed at most 5 times in total |
| Api.RateLimiter.Check | src/utils/api.ts:158-177 | the limiter object's call returns and stores exactly what `CheckRateLimit` computes from the old counters |
| Api.RateLimiter.constructor | src/utils/api.ts:158-159 | count 0 and a window ending 60000 ms after load |
| Geolocation.WithinRadiusBoundary | src/utils/geolocation.ts:84-96 | the radius test is inclusive: a point at exactly the radius is within it, any smaller radius excludes it |
| Geolocation.WithinRadiusMonotone | src/utils/geolocation.ts:84-96 | enlarging the radius never excludes a point |
| Geolocation.IsWithinRadius | src/utils/geolocation.ts:84-96 | `isWithinRadius`: the distance is at most the radius; its properties are WithinRadiusBoundary and WithinRadiusMonotone |
| Geolocation.ErrorMessage | src/utils/geolocation.ts:22-37 | error codes 1, 2, 3 map to the permission, unavailable and timeout messages; any other code to "Unknown error occurred" |
| Geolocation.ErrorMessagesDistinct | src/utils/geolocation.ts:22-37 | the three known codes have messages distinct from each other and from the unknown-code message |
| Geolocation.RequestGeolocation | src/utils/geolocation.ts:8-42 | unsupported: rejects without asking the browser; supported: asks with high accuracy, a 10 s timeout and a 10 s maximum age, and resolves with the coordinates or rejects with the code's message |
| Geolocation.UnsupportedIgnoresAnswer | src/utils/geolocation.ts:10-13 | without geolocation support the outcome does not depend on the browser's answer |
| Disasters.ClassifyHook | src/hooks/useDisasters.tsx:276-294 | the hook's classifier never answers "low", and the types it does not list are "moderate" |
| Disasters.WildfireTiers | src/hooks/useDisasters.tsx:289-292 | wildfire area: critical iff > 10000, high iff in (5000, 10000], moderate iff <= 5000 |
| Disasters.ClassifyHookMonotone | src/hooks/useDisasters.tsx:276-294 | larger readings never give a lower severity |
| Disasters.ClassifiersDiffer | src/hooks/useDisasters.tsx:276-294 | the two copies of the classifier agree except on wildfires larger than 5000 acres, which the hook rates high or critical and the api copy moderate |
| Disasters.MockEarthquakes | src/hooks/useDisasters.tsx:7-84 | the mock earthquakes, their readings and stored severities; the SeverityAgrees lemmas are about them |
| Disasters.MockFloods | src/hooks/useDisasters.tsx:86-138 | the mock floods, including fl-3 |
| Disasters.MockHurricanes | src/hooks/useDisasters.tsx:140-177 | the mock hurricanes |
| Disasters.MockTornadoes | src/hooks/useDisasters.tsx:179-204 | the mock tornadoes |
| Disasters.MockWildfires | src/hooks/useDisasters.tsx:206-243 | the mock wildfires, including wf-2 |
| Disasters.MockData | src/hooks/useDisasters.tsx:257 | the five arrays concatenated; FetchDisasterData stores a newest-first permutation of it |
| Disasters.StoredSeverityIsNotDerived | src/hooks/useDisasters.tsx:117-123 | the mock records fl-3 and wf-2 (lines 117-123 and 222-229) are stored as "high" although the classifier rates them "critical" |
| Disasters.EarthquakeSeveritiesAgree | src/hooks/useDisasters.tsx:7-84 | every mock earthquake's stored severity is the classifier's |
| Disasters.FloodSeveritiesAgree | src/hooks/useDisasters.tsx:86-138 | every mock flood's stored severity is the classifier's or it is fl-3 |
| Disasters.StormSeveritiesAgree | src/hooks/useDisasters.tsx:140-204 | every mock hurricane and tornado has the classifier's severity |
| Disasters.WildfireSeveritiesAgree | src/hooks/useDisasters.tsx:206-243 | every mock wildfire's stored severity is the classifier's or it is wf-2 |
| Disasters.OtherStoredSeveritiesAgree | src/hooks/useDisasters.tsx:7-257 | across the whole mock feed, fl-3 and wf-2 are the only records whose stored severity differs from the classifier's |
| Disasters.SwapDown | src/hooks/useDisasters.tsx:260 | exchanges two neighbouring cells and nothing else |
| Disasters.SortNewestFirst | src/hooks/useDisasters.tsx:260 | `sort((a, b) => b.timestamp - a.timestamp)` leaves the array ordered by non-increasing timestamp and a permutation of its old contents |
| Disasters.ToArray | src/hooks/useDisasters.tsx:257-260 | a fresh array holding the feed |
| Disasters.DisasterFeed.constructor | src/hooks/useDisasters.tsx:246-248 | the hook starts with no events, loading, and no error |
| Disasters.DisasterFeed.FetchDisasterData | src/hooks/useDisasters.tsx:250-270 | after a fetch the feed is the mock data reordered newest first, loading is off and the error is cleared |
| Disasters.DisasterFeed.Publish | src/hooks/useDisasters.tsx:260-266 | publishing stores a newest-first permutation of the data and ends loading |
| Shelters.ToLower | src/components/shelters/SheltersList.tsx:91-94 | lower-casing keeps the length and maps each character |
| Shelters.MockShelters | src/components/shelters/SheltersList.tsx:13-80 | the five mock shelters; MockShelterBadges states their badges |
| Shelters.Includes | src/components/shelters/SheltersList.tsx:91-94 | `includes` holds iff the needle occurs at some position |
| Shelters.IncludesEmpty | src/components/shelters/SheltersList.tsx:91-94 | every string includes the empty string |
| Shelters.FilteredShelters | src/components/shelters/SheltersList.tsx:91-94 | the search keeps, in order, exactly the shelters whose lower-cased name or address contains the lower-cased term, each as often as in the list |
| Shelters.EmptySearchKeepsAll | src/components/shelters/SheltersList.tsx:91-94 | an empty search term keeps every shelter |
| Shelters.SearchIgnoresCase | src/components/shelters/SheltersList.tsx:91-94 | terms equal up to case give the same result |
| Shelters.NearbyShelters | src/components/shelters/SheltersList.tsx:97-107 | without a location no shelter is nearby; with one, exactly the filtered shelters within 10 km, each with its multiplicity, in order |
| Shelters.NearbyIsWithinRadius | src/components/shelters/SheltersList.tsx:97-107 | every nearby shelter passes `isWithinRadius` with the 10 km radius |
| Shelters.DisplayedShelters | src/components/shelters/SheltersList.tsx:110 | the "nearby" tab shows the nearby subset of the search result, the "all" tab the search result |
| Shelters.NearbyWithoutLocationIsEmpty | src/components/shelters/SheltersList.tsx:97-110 | the nearby tab without a location shows nothing |
| Shelters.DistanceString | src/components/shelters/SheltersList.tsx:136-149 | no location gives "Distance unknown"; under 1 km the label is in metres (distance × 1000), otherwise in kilometres |
| Shelters.OccupancyBadgeOf | src/components/shelters/SheltersList.tsx:152-163 | for a positive capacity: near capacity iff occupancy >= 90 %, high iff in [75, 90) %, moderate iff in [50, 75) %, available below 50 % |
| Shelters.OccupancyBadgeMonotone | src/components/shelters/SheltersList.tsx:152-163 | more occupants never give a lower badge |
| Shelters.OccupancyBadgeZeroCapacity | src/components/shelters/SheltersList.tsx:152-163 | with capacity 0 the division gives Infinity (near capacity) for any occupant, NaN (available) for none |
| Shelters.MockShelterBadges | src/components/shelters/SheltersList.tsx:13-80 | the badges of the five mock shelters |
| Shelters.EmptyStateMessage | src/components/shelters/SheltersList.tsx:186-196 | a search term gives the no-match text; the nearby tab with a location the none-nearby text; otherwise the none-active text |
| SafetyTips.AllTips | src/components/safety/SafetyTips.tsx:129 | exactly the tips of the catalogue in the chosen language, each as often as in the catalogue, in catalogue order |
| SafetyTips.MockSafetyTips | src/components/safety/SafetyTips.tsx:12-76 | the nine English tips; EnglishListLanguage states their language |
| SafetyTips.SpanishTips | src/components/safety/SafetyTips.tsx:79-101 | the three Spanish tips; SpanishListLanguage and SpanishListTypes state their language and types |
| SafetyTips.AllTipsListOrder | src/components/safety/SafetyTips.tsx:129 | the English list's matches come before the Spanish list's |
| SafetyTips.SecondListSelected | src/components/safety/SafetyTips.tsx:129 | if only the second list has the language, the filter is the second list |
| SafetyTips.FirstListSelected | src/components/safety/SafetyTips.tsx:129 | if only the first list has the language, the filter is the first list |
| SafetyTips.EnglishListLanguage | src/components/safety/SafetyTips.tsx:12-76 | every tip of the first list is English |
| SafetyTips.SpanishListLanguage | src/components/safety/SafetyTips.tsx:79-101 | every tip of the second list is Spanish |
| SafetyTips.SpanishTipsOnly | src/components/safety/SafetyTips.tsx:126-129 | choosing "es" shows exactly the Spanish list |
| SafetyTips.EnglishTipsOnly | src/components/safety/SafetyTips.tsx:126-129 | choosing "en" shows exactly the English list |
| SafetyTips.TypesOf | src/components/safety/SafetyTips.tsx:132 | `tips.map(tip => tip.disasterType)`, index by index |
| SafetyTips.DisasterTypes | src/components/safety/SafetyTips.tsx:132 | the tabs are the disaster types of the shown tips, each once, in order of first occurrence |
| SafetyTips.TipsOfType | src/components/safety/SafetyTips.tsx:166-167 | a tab's content is exactly the shown tips of that type, each as often as shown, in order |
| SafetyTips.EveryTabHasTips | src/components/safety/SafetyTips.tsx:152-176 | no tab is empty |
| SafetyTips.TabsInListOrder | src/components/safety/SafetyTips.tsx:132 | if no type repeats, the tabs are the types in list order |
| SafetyTips.SpanishListTypes | src/components/safety/SafetyTips.tsx:79-101 | the Spanish tips cover earthquake, flood and hurricane, in that order |
| SafetyTips.SpanishTabsOfList | src/components/safety/SafetyTips.tsx:79-101 | the Spanish list's tabs are earthquake, flood, hurricane |
| SafetyTips.SpanishTabs | src/components/safety/SafetyTips.tsx:126-132 | in Spanish the tabs are earthquake, flood, hurricane |
| SafetyTips.DefaultTabMayBeMissing | src/components/safety/SafetyTips.tsx:125-152 | in Spanish a `defaultDisasterType` other than earthquake, flood or hurricane (such as "tornado") names no tab, since the default is not checked against the tabs |
| NumberText.DigitChar | src/pages/Dashboard.tsx:56-58 | the character is a decimal digit of that value |
| NumberText.DecimalString | src/pages/Dashboard.tsx:56-58 | `toString` of a natural: non-empty digits without a leading zero (except for 0 itself), one digit below 10 |
| NumberText.DecimalStringValue | src/pages/Dashboard.tsx:56-58 | reading the digits back gives the number |
| NumberText.ShortDecimal | src/pages/Dashboard.tsx:56-58 | a number below 1000 has at most three digits |
| Dashboard.CriticalAlerts | src/pages/Dashboard.tsx:32-34 | exactly the critical events, each as often as in the feed, in feed order |
| Dashboard.RecentAlerts | src/pages/Dashboard.tsx:37-40 | exactly the events newer than 86400000 ms before now, each as often as in the feed, in feed order |
| Dashboard.RecentCutoffIsStrict | src/pages/Dashboard.tsx:37-40 | an event exactly 24 hours old is not recent; one a millisecond younger is |
| Dashboard.RecentAlertsShrink | src/pages/Dashboard.tsx:37-40 | re-filtering at a later time is filtering the feed at that time |
| Dashboard.CriticalRecentCommute | src/pages/Dashboard.tsx:32-40 | critical-of-recent equals recent-of-critical |
| Dashboard.InsertCommas | src/pages/Dashboard.tsx:57 | the global replace of `\B(?=(\d{3})+(?!\d))` by "," scanning from a position; InsertCommasIsGrouped shows it groups the digits by three from the right |
| Dashboard.FormatNumber | src/pages/Dashboard.tsx:56-58 | `formatNumber` on naturals; FormatNumberDigits, FormatNumberWellGrouped and FormatNumberSmall state its properties |
| Dashboard.InsertCommasAppend | src/pages/Dashboard.tsx:56-58 | appending a group of three digits to at least one digit appends a comma and the group to the replaced text |
| Dashboard.InsertCommasIsGrouped | src/pages/Dashboard.tsx:56-58 | the regular-expression replace equals grouping the digits by three from the right |
| Dashboard.InsertCommasUnchanged | src/pages/Dashboard.tsx:56-58 | up to three digits get no comma |
| Dashboard.RemoveCommasJoin | src/pages/Dashboard.tsx:56-58 | removing commas from two parts joined by a comma is joining the two parts with their commas removed |
| Dashboard.RemoveCommasOfDigits | src/pages/Dashboard.tsx:56-58 | digits contain no comma |
| Dashboard.GroupedRemoveCommas | src/pages/Dashboard.tsx:56-58 | removing the commas from grouped digits restores the digits |
| Dashboard.GroupedIsWellGrouped | src/pages/Dashboard.tsx:56-58 | grouped digits have a first group of 1-3 digits followed by groups of exactly 3 |
| Dashboard.WellGroupedIsGrouped | src/pages/Dashboard.tsx:56-58 | every well-grouped string is the grouping of its own digits; there is only one grouping |
| Dashboard.DigitsAppend | src/pages/Dashboard.tsx:56-58 | two digit strings concatenated are a digit string |
| Dashboard.GroupedAppend | src/pages/Dashboard.tsx:56-58 | appending three digits appends a comma group |
| Dashboard.FormatNumberDigits | src/pages/Dashboard.tsx:56-58 | `formatNumber(n)` without its commas is `n.toString()` |
| Dashboard.FormatNumberWellGrouped | src/pages/Dashboard.tsx:56-58 | `formatNumber(n)` is well grouped |
| Dashboard.FormatNumberSmall | src/pages/Dashboard.tsx:56-58 | below 1000 `formatNumber` is plain `toString` |
| Dashboard.DecimalExample | src/pages/Dashboard.tsx:56-58 | 1234567 prints as "1234567" |
| Dashboard.FormatNumberExample | src/pages/Dashboard.tsx:56-58 | 1234567 formats as "1,234,567" |
| Dashboard.ToggledTheme | src/pages/Dashboard.tsx:61-63 | the new theme is "light" or "dark", and "light" exactly when the old one was "dark" |
| Dashboard.ToggleTwice | src/pages/Dashboard.tsx:61-63 | toggling twice restores a light or dark theme |
| Dashboard.ToggleTwiceFromOther | src/pages/Dashboard.tsx:61-63 | any other theme value becomes "light" after two toggles, not itself |
| Dashboard.SidebarAlerts | src/pages/Dashboard.tsx:225 | the sidebar shows the first min(5, n) recent alerts, and all of them iff there are at most 5 |
| Dashboard.ShowAll | src/pages/Dashboard.tsx:245 | the "Show All" condition, more than five recent alerts; ShowAllIffTruncated relates it to the sidebar |
| Dashboard.ShowAllIffTruncated | src/pages/Dashboard.tsx:245 | the "Show All" button appears iff the sidebar hides some recent alerts |
| Dashboard.DashboardPage.constructor | src/pages/Dashboard.tsx:27-29 | nothing selected, the map tab, the given theme |
| Dashboard.DashboardPage.SelectDisaster | src/pages/Dashboard.tsx:43-48 | selects the event and shows the map tab; the theme is kept |
| Dashboard.DashboardPage.SetActiveTab | src/pages/Dashboard.tsx:303 | sets the tab only |
| Dashboard.DashboardPage.ToggleTheme | src/pages/Dashboard.tsx:61-63 | replaces the theme by its toggle only |
| Index.NearbyDisasters | src/pages/Index.tsx:31-33 | as written: the feed without a location, an error with one (`filterByDistance` is not returned by the hook) |
| Index.NearbyWithLocationFails | src/pages/Index.tsx:24-33 | with any location the page's nearby list cannot be computed |
| Index.IntendedNearbyDisasters | src/pages/Index.tsx:31-33 | intended: the whole feed without a location; with one, exactly the events within the radius, in order |
| Index.IntendedAgreesWhereDefined | src/pages/Index.tsx:31-33 | where the written code computes a list, the intended one is the same list |
| Index.IndexCriticalAlerts | src/pages/Index.tsx:36-39 | exactly the critical events of the nearby list, in its order, each as often as in that list |
| Index.IndexRecentAlerts | src/pages/Index.tsx:41-44 | exactly the nearby events newer than 24 hours, in the nearby list's order, each as often as in that list |
| Index.IndexAlertsAreNearby | src/pages/Index.tsx:31-44 | every listed alert for a located user is within the radius, and a larger radius keeps it listed |
| Index.IndexAlertsWithoutLocation | src/pages/Index.tsx:31-44 | without a location the page's lists are the dashboard's lists of the feed |
| Index.IndexSidebarAlerts | src/pages/Index.tsx:198 | the sidebar shows the first min(3, n) recent alerts |
| Index.IndexSidebarIsDashboardPrefix | src/pages/Index.tsx:198 | the index sidebar is a prefix of the dashboard sidebar |
| Index.IndexPage.constructor | src/pages/Index.tsx:26-28 | radius 100 km, nothing selected, the alerts tab |
| Index.IndexPage.SelectDisaster | src/pages/Index.tsx:47-52 | selects the event and shows the map tab; the radius is kept |
| Index.IndexPage.SetActiveTab | src/pages/Index.tsx:119 | sets the tab only |
| ReportIncident.Validate | src/components/reporting/ReportIncident.tsx:35-53 | each error iff its guard fires and no earlier guard did; on success the location is the current one or the parsed manual pair |
| ReportIncident.ValidateAccepts | src/components/reporting/ReportIncident.tsx:35-49 | a report passes iff it has a description and the chosen location source is present |
| ReportIncident.SubmitDisabled | src/components/reporting/ReportIncident.tsx:258 | the button's `disabled` condition; EnabledSubmitHasLocation states what an enabled button guarantees |
| ReportIncident.EnabledSubmitHasLocation | src/components/reporting/ReportIncident.tsx:258 | an enabled submit button never meets the missing-current-location error |
| ReportIncident.AddImages | src/components/reporting/ReportIncident.tsx:88-92 | chosen files are appended after the current images; no files leave them as they are |
| ReportIncident.RemoveImage | src/components/reporting/ReportIncident.tsx:96-98 | removes exactly the image at the index; an out-of-range index changes nothing |
| ReportIncident.ReporterId | src/components/reporting/ReportIncident.tsx:63 | the user's id when it is non-empty, otherwise "anonymous"; never empty |
| ReportIncident.ImageNames | src/components/reporting/ReportIncident.tsx:64 | the names of the images, index by index |
| ReportIncident.ReportForm.constructor | src/components/reporting/ReportIncident.tsx:24-29 | the form's initial state |
| ReportIncident.ReportForm.BeginSubmit | src/components/reporting/ReportIncident.tsx:32-65 | the validation result decides; a valid form produces the report and starts submitting, an invalid one changes nothing |
| ReportIncident.ReportForm.FinishSubmit | src/components/reporting/ReportIncident.tsx:70-84 | description and images are cleared and submitting ends whether or not the callback throws; it is called iff one was given |
| ReportIncident.ReportForm.HandleImageChange | src/components/reporting/ReportIncident.tsx:88-92 | the images become `AddImages` of the old ones; nothing else changes |
| ReportIncident.ReportForm.RemoveImageAt | src/components/reporting/ReportIncident.tsx:96-98 | the images become `RemoveImage` of the old ones; nothing else changes |
| Auth.MergePreferences | src/context/AuthContext.tsx:107-116 | each preference is the patch's value when given and the old value otherwise |
| Auth.MockUser | src/context/AuthContext.tsx:26-36 | the demo user that login signs in and registration copies |
| Auth.MergeEmptyPatch | src/context/AuthContext.tsx:107-116 | an empty patch changes nothing |
| Auth.MergeIdempotent | src/context/AuthContext.tsx:107-116 | applying the same patch twice is applying it once |
| Auth.MergeTwice | src/context/AuthContext.tsx:107-116 | two patches in a row are one combined patch, the later winning |
| Auth.UpdatedUser | src/context/AuthContext.tsx:110-116 | only the preferences change, by the merge |
| Auth.RegisteredUser | src/context/AuthContext.tsx:88-93 | the mock user with the given email and name and the id "user-" followed by the time |
| Auth.RegisteredIdEncodesTime | src/context/AuthContext.tsx:93 | the registration time can be read back from the id |
| Auth.RegisteredIdsDiffer | src/context/AuthContext.tsx:93 | registrations at different times get different ids |
| Auth.AuthSession.constructor | src/context/AuthContext.tsx:39-40 | no user, loading, the given storage |
| Auth.AuthSession.Mount | src/context/AuthContext.tsx:42-54 | a stored user is restored; an unparsable entry is removed; nothing stored leaves no user; loading ends |
| Auth.AuthSession.Login | src/context/AuthContext.tsx:56-73 | the mock user is signed in and stored; loading ends |
| Auth.AuthSession.Logout | src/context/AuthContext.tsx:75-79 | the user is cleared and the stored entry removed |
| Auth.AuthSession.Register | src/context/AuthContext.tsx:81-105 | the registered user is signed in and stored; loading ends |
| Auth.AuthSession.UpdateUserPreferences | src/context/AuthContext.tsx:107-121 | without a user nothing changes; with one the user and the stored entry become the updated user |

## Findings

| source | as written | input that shows it | evidently intended | confidence | as-written member | corrected member |
|---|---|---|---|---|---|---|
| src/pages/Index.tsx:24-33 | the page takes `filterByDistance` from `useDisasters` and calls it when a location is known, but the hook (src/hooks/useDisasters.tsx:308-314) returns no such member, so the call throws a TypeError | any known user location, e.g. latitude 34.05, longitude -118.25 | the feed restricted to the events within `radius` (100 km) of the user | high, not executed | Index.NearbyWithLocationFails | Index.IntendedNearbyDisasters |

The page's lists, `Index.IndexCriticalAlerts` and `Index.IndexRecentAlerts`,
are built on the intended nearby list.

## Left out

- The haversine distance `calculateDistance` (src/utils/geolocation.ts:52-68, with `toRad` at line 75) is not modelled. It is a parameter `dist`, and nothing is assumed about it. Floating-point trigonometry has no counterpart in Dafny's `real`.
- NumberText.DecimalString: it prints every natural as plain digits. JavaScript's `toString` switches to exponent form from 10^21 (`1e+21`, which `formatNumber` leaves without commas), and a double holds every natural only up to 2^53. Neither range is modelled. The program formats only list lengths and `Date.now()` values, which are far below both bounds.
- `toFixed` in the distance label (SheltersList.tsx:146-148) is left out; the label carries the exact value.
- `parseFloat` of the manual coordinates is a parameter `parse`.
- Shelters.OccupancyBadgeOf: the percentage is compared exactly (`occupancy * 100 >= 90 * capacity`), without floating-point rounding. For a negative capacity the model follows the real-number comparison.
- Timers, promises and `await` delays are left out:
  - the 1-second login and registration delays;
  - the 1.5-second report delay;
  - the polling interval of useDisasters.tsx:297-306.
  
  Each asynchronous operation is one step, or two for the report.
- The submit of the report form is split into `BeginSubmit` and `FinishSubmit` at the `await`.
- Toasts, `console` output, notification permission and the `window.location` call buttons are left out. They only display or log.
- The try/catch around login and registration is not modelled: the only call inside it that can throw is `localStorage.setItem` (src/context/AuthContext.tsx:64 and 96), whose quota failure is left out below.
- The catch in `fetchDisasterData` (useDisasters.tsx:268-269) is not modelled, for the same reason.
- A throwing `onSuccess` is modelled by `Callback.Throws`; the catch only shows a toast.
- src/utils/auth.ts is not part of this model. The session provider in AuthContext.tsx does not use it.
- The per-type mock fetchers of src/utils/api.ts:12-152 are not part of this model. The hook does not use them, and their records, such as eq-101 and fl-101, are not the hook's.
- The rendering files are not part of this model: layout, navbar, footer, map, alert list and login form.
- Disasters.SortNewestFirst: it proves ordering and permutation, not the stability of `Array.prototype.sort` for equal timestamps.
- Shelters.ToLower folds only the ASCII letters A-Z. `toLowerCase` folds all of Unicode.
- Auth.AuthSession.Mount: `JSON.parse` of text that is valid JSON but not a user record is not distinguished. Stored text is a user record or malformed.
- Auth.AuthSession.Mount: an empty stored string is treated like a missing entry, because `if (savedUser)` is false for it.
- `getAddressFromCoordinates` (src/utils/geolocation.ts:103-118) is left out: it waits and returns a fixed address.
- Disasters.MockData: one time `t0` stands for every `Date.now()` the mock records of src/hooks/useDisasters.tsx evaluate at module load. In the source each record calls it separately, so two records with equal offsets (eq-6 and fl-1, say) need not get equal timestamps. No lemma depends on such an equality.
- `localStorage.setItem` failing on a full quota is not modelled.
- Dashboard.FormatNumberDigits covers naturals only. `formatNumber` is only applied to list lengths, so negative and fractional numbers are not modelled.
- The theme belongs to a theme context outside these files. `DashboardPage` holds it as a field.
- `DisasterEvent` carries an `area` reading that src/types/index.ts does not declare. The wildfire mock records set it, and the hook's classifier reads it.
- ReportIncident.Validate: `!description` rejects only the empty string, so a description of spaces passes, as in the source.
- ReportIncident.Validate: `parseFloat` may yield NaN for unparsable coordinates, and the model passes whatever `parse` returns, as the source does.
