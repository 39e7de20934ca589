# Earthquake monitor: the verified core

The web page watches a USGS earthquake feed. A single browser object,
`EarthquakeMonitor` in `script.js`, does the work:

- It downloads a GeoJSON summary feed for a chosen time range and turns each
  feature into a flat earthquake record. Magnitude, depth and place get
  defaults when missing. The `[lon, lat, depth]` position is swapped to
  latitude/longitude. A record is flagged new when its id has not been seen
  before.
- It notifies the user of new earthquakes of magnitude 4.5 or more. A
  notification for magnitude 5 or more stays until dismissed; any other
  closes itself after 10 seconds.
- It filters the records by a minimum magnitude, a depth band and a location
  search, sorts them by one of six keys, and renders them as a list and as
  circle markers on a map. The list badge and the marker are coloured by
  magnitude bucket.
- It remembers the notification preference and refreshes the feed on a
  five-minute interval.

This Dafny project models that object without its DOM, Leaflet and network
glue. The object is `class EarthquakeMonitor` in `monitor.dfy`. Its methods
change its fields as the source's methods do. The fields are the source's,
with these stand-ins and additions:

- `hasMap` stands for `this.map`, which is either null or a Leaflet map.
- `mapLayer` is added: the multiset of markers drawn on the Leaflet map.
- `listView` is added: what the list container shows.
- the ghost `criteria` is added: the filter controls' values at the last
  `applyFilters`.
- the `apiUrls` table is the module constant `Styling.ApiUrls`, since no
  method changes it.

The pure pieces the methods use are functions in separate modules:

| file | module | what it holds |
|---|---|---|
| `wrappers.dfy` | `Wrappers` | `Option` |
| `text.dfy` | `Text` | ASCII `toLowerCase`, JavaScript `trim`, `includes` |
| `records.dfy` | `Records` | raw GeoJSON features, the record normaliser, novelty flags and the seen-set |
| `styling.dfy` | `Styling` | magnitude buckets, badge class, marker style, relative-time buckets, the feed URL table |
| `selection.dfy` | `Selection` | the filter predicate, the six sort orders, a stable insertion sort on an array proved equal to a functional insertion sort |
| `notify.dfy` | `Notify` | selection of notification candidates, the persistence choice, the stored preference, the toggle decision |
| `monitor.dfy` | `Monitor` | the monitor class, markers, the list view, the fetch outcome |

Values the source reads from the page, the browser or the clock are
parameters of the Dafny methods:

- the filter controls, as a `Criteria` value;
- the time-range control, as a string;
- the fetch outcome, as a `FetchResult`;
- `Notification.permission`, the answer of the permission prompt and the
  stored `localStorage` string;
- the interval handle returned by `setInterval`;
- the current time, in milliseconds.

Magnitudes, depths and coordinates are `real`. Times are integer
milliseconds.

In these places the model follows the code as written:

- The notification gate tests that the previous batch was non-empty
  (`earthquakes.length > 0`). It does not test whether the seen-set is
  empty. So a batch that follows an empty one raises no notification, even
  when earlier batches filled the seen-set.
- `loadEarthquakeData` has no in-flight guard. Nothing here claims that at
  most one fetch runs at a time.
- The `online` handler reloads the data but does not restart the interval.
  `startAutoUpdate` overwrites the stored handle without clearing it, and
  `StartAutoUpdate` answers the handle that keeps running.

## Model

| member | source | states |
|---|---|---|
| Text.LowerChar | script.js:318 | lower-casing maps `A`-`Z` up by 32 and keeps every other character, so no upper-case letter remains |
| Text.Lower | script.js:318 | `toLowerCase` keeps the length and lower-cases character by character |
| Text.LowerIdempotent | script.js:318 | lower-casing twice is the same as lower-casing once |
| Text.LeadingSpaces | script.js:318 | counts exactly the white space at the start: all counted characters are spaces and the next one is not |
| Text.TrailingSpaces | script.js:318 | counts exactly the white space at the end |
| Text.Trim | script.js:318 | the result is empty iff the input is all white space; otherwise it starts and ends with a non-space and is the contiguous slice holding every non-space character |
| Text.Includes | script.js:343 | `includes` holds for the empty needle, and only for needles no longer than the string |
| Text.IncludesIffOccurs | script.js:343 | `includes` holds iff the needle occurs at some position |
| Records.At | script.js:101-102 | reading a position index gives a value iff the index is inside the array, and that value is the element |
| Records.OrZero | script.js:98 | an absent number reads as 0, a present one as itself |
| Records.PlaceOrDefault | script.js:99 | an absent or empty place becomes "Unknown location"; any other place is kept |
| Records.Normalize | script.js:96-106 | the callback succeeds iff the feature has properties and a geometry, and then builds the record field by field: the id, url, title and time are copied, magnitude and depth default to 0, the place defaults to "Unknown location", latitude is position[1] and longitude position[0], and the record is new iff its id was unseen |
| Records.NormalizeAll | script.js:96-106 | the batch is built iff every feature has properties and a geometry, and then has one record per feature |
| Records.NormalizeAllSpec | script.js:96-106 | record i comes from feature i: same id, url, title and time; magnitude and depth default to 0; latitude is position[1] and longitude position[0]; new iff the id was unseen |
| Records.Ids | script.js:114 | the ids of a batch are exactly the ids of its records |
| Records.IdsSnoc | script.js:114 | adding one record adds exactly its id |
| Records.Seen | script.js:105 | a batch with every novelty flag cleared keeps its records otherwise |
| Records.NoveltyOnlyFlags | script.js:105 | normalising against another seen-set changes only the novelty flags |
| Records.ReprocessMarksNothingNew | script.js:105-114 | normalising the same features after their ids are recorded gives the same records, none new |
| Records.NewIffUnseen | script.js:105 | a record is new iff its id was not in the seen-set before the batch |
| Styling.MagnitudeClass | script.js:465-469 | the class is "low" iff m < 3, "moderate" iff 3 <= m < 5, "high" iff m >= 5 |
| Styling.StyleFor | script.js:249-259 | radius 8 iff m < 3, 12 iff 3 <= m < 5, 16 iff m >= 5; green, orange and red go with 8, 12 and 16 |
| Styling.ClassAndStyleAgree | script.js:249-259 | the badge class and the marker style of any magnitude come from the same bucket |
| Styling.RadiusMonotone | script.js:249-259 | a larger magnitude never gets a smaller marker |
| Styling.RelativeTime | script.js:471-486 | "just now" iff under a minute has elapsed; otherwise whole minutes under an hour, whole hours under a day, and clock time from a day on |
| Styling.FeedUrl | script.js:13-19 | a URL exists iff the selection, with "" read as "day" and "all" as "month", is hour, day, week or month; it is that period's summary feed |
| Styling.FeedAliases | script.js:13-19 | "all" requests the month feed and "" the day feed; hour, day, week and month all have different feeds |
| Selection.ParseDepthBand | script.js:327-339 | only "shallow", "intermediate" and "deep" select a depth test |
| Selection.Matches | script.js:322-348 | a kept record reaches the minimum magnitude and lies in the chosen depth band |
| Selection.MatchesIff | script.js:322-348 | a record is kept iff its magnitude reaches the minimum, its depth lies in the chosen band (at most 70, above 70 up to 300, above 300) and a non-blank search occurs in its lower-cased location |
| Selection.DepthBandsPartition | script.js:327-339 | every depth lies in exactly one of the three bands |
| Selection.Filter | script.js:322-348 | the filter never lengthens the list |
| Selection.FilterSpec | script.js:322-348 | the filter keeps every matching record as often as it occurs, and only matching records |
| Selection.FilterIsSubsequence | script.js:322-348 | the kept records appear in their original order |
| Selection.ParseSortKey | script.js:352-366 | each of "time-asc", "magnitude-desc", "magnitude-asc", "depth-asc" and "depth-desc" selects its own order; any other value sorts by time descending |
| Selection.Compare | script.js:351-368 | the comparator is negative exactly when the first record has the smaller key, and zero exactly when the keys are equal |
| Selection.CompareIsKeyDifference | script.js:351-368 | each comparator is the difference of a numeric key, so it is a consistent total preorder |
| Selection.InsertPermutes | script.js:351-368 | inserting adds exactly one element |
| Selection.SortByKeyPermutes | script.js:351-368 | sorting is a permutation |
| Selection.InsertSorted | script.js:351-368 | inserting into a sorted list keeps it sorted |
| Selection.InsertStable | script.js:351-368 | inserting keeps the order of the elements of every key, with the new element last among its equals |
| Selection.SortByKeySortedStable | script.js:351-368 | sorting orders by key and keeps the original order among equal keys |
| Selection.StableSortIsUnique | script.js:351-368 | a stable sorted permutation is unique, so any stable sort gives this result |
| Selection.ShiftLarger | script.js:351-368 | moves exactly the elements with a larger key than the inserted one up by one slot |
| Selection.InsertInPlace | script.js:351-368 | one insertion step on the array performs the functional insertion |
| Selection.SortInPlace | script.js:351-368 | the array ends as the stable sort of its old contents |
| Selection.Select | script.js:315-368 | the filtered and sorted list is never longer than the batch |
| Selection.SelectSpec | script.js:315-368 | the filtered list is a permutation of exactly the matching records, sorted by the chosen order, ties in feed order |
| Notify.NotificationWorthy | script.js:305-308 | the candidates are exactly the new records of magnitude 4.5 or more, each as often as in the batch |
| Notify.NotificationWorthyInOrder | script.js:305-308 | the candidates keep their feed order |
| Notify.ShowNotification | script.js:631-666 | a notification appears iff notifications are on and permission is granted; it is tagged with the id, stays until dismissed iff m >= 5, and otherwise closes after 10000 ms |
| Notify.ShowAll | script.js:310-312 | at most one notification per record, and none unless notifications are on and permission is granted |
| Notify.CheckForNotificationWorthy | script.js:304-313 | at most one notification per candidate, and none unless notifications are on and permission is granted |
| Notify.ShowAllSpec | script.js:304-313 | one notification per candidate, in order, each tagged and persistent as above; none when off or not granted |
| Notify.NotificationsFor | script.js:109-111 | notifications are raised only when they are enabled, the previous batch was non-empty and permission is granted |
| Notify.NotificationsForSpec | script.js:109-111 | past the gate, there is one notification per candidate, tagged with its id, persistent iff m >= 5 |
| Notify.NothingNewNothingWorthy | script.js:305-308 | a batch with no new record has no candidate |
| Notify.PreferenceString | script.js:566 | the stored string is "true" iff notifications are on |
| Notify.PreferenceRoundTrip | script.js:566-577 | a stored preference restores the state it was saved from while permission is granted, and never while denied |
| Notify.ToggleDecision | script.js:543-562 | each outcome has its exact condition: an alert box iff there is no Notification API; another alert box iff permission is denied; the "denied" button iff permission was undecided and the prompt did not grant it; otherwise the setting flips |
| Notify.InitialButton | script.js:569-583 | the button starts "enabled" iff "true" is stored and permission is granted, "blocked" iff permission is denied, "not supported" iff there is no Notification API |
| Monitor.MarkerFor | script.js:244-268 | a record's marker carries its id and position, with the radius and colour of its magnitude bucket |
| Monitor.ItemFor | script.js:399-420 | a list entry carries the record's id and `new` flag, with the badge class of its magnitude bucket |
| Monitor.ListFor | script.js:373-386 | the list shows the empty state iff there is no filtered record; otherwise entry i carries record i's id, `new` flag and badge class, in order |
| Monitor.BadgeAndMarkerAgree | script.js:249-259 | in a rendered list and map, entry i's badge and marker i's style come from the same bucket |
| Monitor.FindById | script.js:423 | the lookup fails iff no filtered record has the id, and otherwise gives the first one that has it |
| Monitor.MarkersForSnoc | script.js:231-235 | pushing one marker extends the marker list by that record's marker |
| Monitor.SortedCopy | script.js:351-368 | sorting a copy in place gives the stable sort of the filtered records |
| Monitor.Delivered | script.js:78-84 | features reach the processing step iff the response has a 2xx status and its body parsed, and they are then that body's `features` member |
| Monitor.ReprocessRaisesNoAlerts | script.js:105-114 | feeding the same features twice raises no notification the second time |
| Monitor.AlertsOnlyForUnseen | script.js:105-111 | every notification names a record of magnitude 4.5 or more whose id was unseen before the batch |
| Monitor.EarthquakeMonitor.constructor | script.js:2-31 | starts with no records, an empty seen-set and a visible map; notifications are restored from the stored preference; the interval handle is stored |
| Monitor.EarthquakeMonitor.CheckNotificationPermission | script.js:569-583 | turns notifications on iff supported, "true" is stored and permission is granted, never off; shows the initial button |
| Monitor.EarthquakeMonitor.ToggleNotifications | script.js:543-567 | flips the setting exactly when the decision allows it, stores the new setting so that it restores itself, and shows the matching button; refusals store nothing |
| Monitor.EarthquakeMonitor.ToggleMap | script.js:187-219 | flips the map visibility; a marker refresh is scheduled exactly when the map becomes visible |
| Monitor.EarthquakeMonitor.UpdateMapMarkers | script.js:221-242 | with a map, the old markers leave the layer and one marker per filtered record, in order, is drawn and remembered; without a map nothing changes |
| Monitor.EarthquakeMonitor.ClearMarkers | script.js:225-228 | every remembered marker leaves the layer and the list is emptied |
| Monitor.EarthquakeMonitor.DrawMarkers | script.js:231-235 | one marker per filtered record is drawn and remembered, in order |
| Monitor.EarthquakeMonitor.RenderEarthquakes | script.js:373-397 | the list shows the empty state or one entry per filtered record, and the markers are rebuilt |
| Monitor.EarthquakeMonitor.ApplyFilters | script.js:315-371 | the filtered list becomes the sorted selection, the list shows it and the map holds exactly its markers |
| Monitor.EarthquakeMonitor.MarkSeen | script.js:114 | the seen-set grows by exactly the batch's ids |
| Monitor.EarthquakeMonitor.ProcessEarthquakeData | script.js:95-118 | succeeds iff `features` exists and every feature is well formed; on failure nothing changes; on success the batch replaces the records, the seen-set gains its ids, the gated notifications are raised and the view is refreshed |
| Monitor.EarthquakeMonitor.AcceptBatch | script.js:114-117 | stores the batch, records its ids and applies the filters |
| Monitor.EarthquakeMonitor.LoadEarthquakeData | script.js:71-93 | requests the selection's feed URL; loads iff the response is delivered and processes; loading records the time, and failure shows the error state and changes nothing else |
| Monitor.EarthquakeMonitor.ShowEarthquakeOnMap | script.js:422-436 | targets the first filtered record with the id when a map exists, showing the map first if it is hidden; answers whether that scheduled a marker refresh |
| Monitor.EarthquakeMonitor.UpdateLastUpdatedTime | script.js:524-528 | records the clock reading as the last update time |
| Monitor.EarthquakeMonitor.ShowErrorState | script.js:530-541 | the list shows the failure message |
| Monitor.EarthquakeMonitor.StartAutoUpdate | script.js:669-674 | stores the new handle and answers the replaced one, which is not cleared |
| Monitor.EarthquakeMonitor.StopAutoUpdate | script.js:676-681 | a truthy handle is cleared and forgotten; otherwise nothing changes |

## Left out

- DOM rendering is left out. This covers the HTML strings of `getEarthquakeItemHTML`, `getEmptyStateHTML` and `showErrorState`, and the DOM updates of `updateStatus`, `updateNotificationButtonState`, `setInitialMapState` and `addMapLegend`. A list entry is kept as its id, badge class and `new` flag, and the button as its state.
- `escapeHtml` is left out because it depends on the browser's `textContent`/`innerHTML` behaviour.
- Leaflet is left out: map creation, tiles, popups, `fitBounds`, `setView` and `openPopup`. The map is a multiset of abstract markers.
- The coordinate-tolerance marker lookup in `centerMapOnEarthquake` is left out. It is floating-point proximity; the model stops at the record to centre on.
- `fetch` and `response.json` are not executed. Their outcome is a parameter.
- Timers, `async` and event wiring are left out:
  - the `setTimeout` callbacks: the marker refresh 100 ms after showing the map, centring 200 ms after switching views, removing the `new` class after 500 ms, and closing a notification after 10 s;
  - `setInterval` itself;
  - the click, input, `visibilitychange`, `online` and `offline` handlers.
  Overlapping loads are therefore not modelled.
- Monitor.EarthquakeMonitor.constructor: the first `loadEarthquakeData` of `init` finishes asynchronously, so it is a separate `LoadEarthquakeData` call. The map's own creation is the flag `withMap`.
- Monitor.EarthquakeMonitor.ToggleMap: the scheduled marker refresh is answered as a flag but not performed. `ShowEarthquakeOnMap` passes the flag on. Under `Valid()` the refresh would rebuild the same markers, so the state it leaves is the same.
- Floating point is left out: NaN from `parseFloat` of the magnitude control, `toFixed`, and JavaScript number coercion in `||`. Magnitude and depth are reals, and an absent value defaults to 0.
- Styling.RelativeTime: the locale-formatted clock time and date strings are not produced. Only the bucket and its count are.
- Text.Lower: lower-casing is ASCII only. Unicode case folding is not modelled.
- `localStorage` and the Notification API are inputs. Only the strings and states that pass through them are modelled.
- A missing `time` property is not modelled. Time is an integer, so comparing with an undefined time is not captured.
- A position with fewer than two elements gives an absent latitude or longitude. The invalid Leaflet marker that would result is not modelled.
- The title, body and icon of a notification are left out. Only its tag, persistence and auto-close delay are kept.
