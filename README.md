# Weather dashboard: search box, dashboard and provider adapters in Dafny

This project models the parts of the weather dashboard that have
sequential behaviour:

- **Provider adapters** (`api.dfy`, module `Api`). `getWeatherData` reshapes
  the weather provider's forecast payload. Current conditions come from
  slot 0. The forecast keeps slot `i` when `i % 8 == 0 || i == 39`, drops the
  first kept slot and takes at most five. `searchLocation` maps the geocoder's
  results to `{lat, lon, display_name}` candidates. The HTTP request is
  abstracted away: both functions take the decoded JSON body as input. A
  dereference the payload can make fail (no `city`, an empty `list`, an empty
  `weather` array) is an `Err`, where the source throws a TypeError.
- **The search box** (`search.dfy`, module `Search`). `Session` holds the
  component's five state variables and the debounce timer as
  `Option<Timer(text, deadline)>` on an integer millisecond clock. It also
  holds the unsettled lookups and a log of the texts handed to
  `performSearch`. Each handler is a function on `Session`. The class
  `SearchBox` keeps the same state in mutable fields. Each of its methods is
  proved to move the fields exactly as the matching function does. The six
  event handlers (`Type`, `Elapse`, `LookupSettled`, `Select`, `Clear`,
  `ClickOutside`) are also proved to keep the invariant `Inv`; the inner
  steps `Debounced`, `SetQuery` and `PerformSearch` are not, since a
  debounce on its own may leave the timer out of step with the query. Sequences of events (`Run`) carry the debounce
  lemmas.
- **The dashboard page** (`dashboard.dfy`, module `Dashboard`). It models the
  geolocation effect's choice of coordinates and the
  `isLoading`/`weatherData` state of `fetchWeather`. `fetchWeather` is split
  at its `await`: `FetchWeather` runs before it, `WeatherArrived` after. It
  also models the three-way render choice. `Home.LocationPicked` connects the
  search box's pick to `fetchWeather`.
- `wrappers.dfy` holds `Option` and `Result`.

Behaviour of the code worth knowing:

- There is no stale-response check. A late answer to an older query replaces
  the results and clears the loader (`Search.LateResponseOverwrites`).
- Clearing with the X icon keeps the results and the dropdown state. The list
  empties only when the debounced `""` search fires 200 ms later.
- A failed lookup keeps the previous results.
- The forecast has at most five days, not always five. A payload of 33 to 39
  slots gives four (`Api.ShortPayload`).
- A blank query is not handled without delay. It goes through the debounce
  like any other text.

## Model

| member | source | states |
|---|---|---|
| `Api.Round` | src/utils/api.ts:30 | `Math.round` gives an integer within one half of its argument, halves rounding up |
| `Api.KeptIndices` | src/utils/api.ts:35 | every index the filter keeps is in range and passes `i % 8 == 0 \|\| i == 39` |
| `Api.KeptIndicesExact` | src/utils/api.ts:35 | an index is kept exactly when it is in range and passes the predicate (both directions) |
| `Api.KeptIndicesIncreasing` | src/utils/api.ts:35 | `filter` keeps list order: the kept indices are strictly increasing |
| `Api.Slice` | src/utils/api.ts:35 | `slice(begin, end)` has `min(end, len) - begin` elements (or none) and element `k` is `s[begin + k]` |
| `Api.ForecastIndices` | src/utils/api.ts:35 | the forecast slots are at most five, strictly increasing, never slot 0, and all kept by the filter |
| `Api.KeptCount` | src/utils/api.ts:35 | the filter keeps `ceil(n / 8)` of `n` slots, plus slot 39 once there are 40 |
| `Api.ForecastLength` | src/utils/api.ts:35 | the forecast has `min(5, k - 1)` entries for `k` kept slots, and entry `j` is kept slot `j + 1` |
| `Api.KeptBelow40` | src/utils/api.ts:35 | below 40 slots the filter keeps exactly the multiples of eight |
| `Api.ThirtyNineSlots` | src/utils/api.ts:35 | a 39-slot list keeps slots 0, 8, 16, 24, 32 |
| `Api.FortySlots` | src/utils/api.ts:35 | a 40-slot list keeps 0, 8, 16, 24, 32, 39, and the forecast is exactly slots 8, 16, 24, 32, 39 |
| `Api.SixteenSlots` | src/utils/api.ts:35 | a 16-slot list gives the one-day forecast `[8]` |
| `Api.ShortPayload` | src/utils/api.ts:35 | 33 to 39 slots give a four-day forecast |
| `Api.Day` | src/utils/api.ts:36-39 | one forecast entry: weekday label of `dt * 1000`, rounded temperature, description and icon of the slot's first `weather` element |
| `Api.MapForecast` | src/utils/api.ts:35-40 | the map succeeds exactly when every selected slot has a `weather` element; then it keeps the order, and entry `k` takes date, rounded temperature, description and icon from selected slot `k` and its first `weather` element; otherwise it fails at a selected slot with an empty `weather` array |
| `Api.GetWeatherData` | src/utils/api.ts:27-41 | success exactly when `city`, slot 0 with a `weather` element, and every forecast slot's `weather` element are present; an empty list always fails; current temperature, description, icon, humidity and wind come from slot 0; the forecast has at most five entries, each built from the matching selected slot |
| `Api.SearchLocation` | src/utils/api.ts:50-54 | one candidate per provider result, in provider order, with `lat` from `geometry.lat`, `lon` from `geometry.lng` and the name from `formatted` |
| `Api.SearchLocationAppend` | src/utils/api.ts:50-54 | the mapping distributes over concatenation, so provider order is kept |
| `Search.TrimStartBlank` | src/components/Search.tsx:32 | trimming the start empties a text exactly when it is all white space, and otherwise stops at a visible character |
| `Search.TrimEndBlank` | src/components/Search.tsx:32 | trimming the end empties a text exactly when it is all white space |
| `Search.TrimEmptyIffBlank` | src/components/Search.tsx:32 | `searchQuery.trim()` is falsy exactly for blank texts |
| `Search.WithQuery` | src/components/Search.tsx:52-54 | setting the query to a new value, including `""`, schedules a debounced search for it 200 ms ahead and replaces any pending one; the same value changes nothing; only query and timer change |
| `Search.AfterSearch` | src/components/Search.tsx:31-46 | a blank text only sets `results := []`; a non-blank one opens the dropdown, shows the loader, clears the selection and starts a lookup for exactly that text, leaving the results alone |
| `Search.Advance` | src/components/Search.tsx:23-29 | time passing fires the pending timeout if it is due: the timer clears and `performSearch` runs on its text (at most one search per tick); with nothing due only the clock moves |
| `Search.Settle` | src/components/Search.tsx:37-43 | on success the results become the returned list, on failure they stay; the loader goes off either way; the query is not consulted |
| `Search.Select` | src/components/Search.tsx:117-123 | picking item `i` empties results and query, closes the dropdown and selects the item's name; a non-empty query schedules a debounced `""` search; loading state and lookups are untouched |
| `Search.Clear` | src/components/Search.tsx:86-90 | the X icon empties the query and the selection and leaves results, dropdown and loader as they were; a non-empty query schedules a debounced `""` search |
| `Search.ClickOutside` | src/components/Search.tsx:57-63 | a mousedown outside closes the dropdown and changes nothing else |
| `Search.Initial` | src/components/Search.tsx:12-54 | the mount state: empty query, no selection, no results, closed, not loading, and the effect's debounced `""` due at 200 ms |
| `Search.Debounce` | src/components/Search.tsx:25-28 | the debounced call replaces any pending timeout by one for its text, due one delay from now |
| `Search.TrimStart` | src/components/Search.tsx:32 | drops leading ECMAScript white space and line terminators |
| `Search.TrimEnd` | src/components/Search.tsx:32 | drops trailing ECMAScript white space and line terminators |
| `Search.Trim` | src/components/Search.tsx:32 | `trim()`: white space removed from both ends |
| `Search.DisplayedValue` | src/components/Search.tsx:78 | the input shows the selected name when there is one, otherwise the query |
| `Search.ShowsLoading` | src/components/Search.tsx:101-103 | the "Loading..." block shows when the dropdown is open and loading |
| `Search.ShowsNoResults` | src/components/Search.tsx:104-108 | "No results" shows when open, not loading, with no results and a non-empty query |
| `Search.ShowsList` | src/components/Search.tsx:109-130 | the list shows when open, not loading, with at least one result |
| `Search.PickShowsName` | src/components/Search.tsx:78 | after a pick the input shows the picked candidate's name |
| `Search.ClearShowsEmpty` | src/components/Search.tsx:78 | after the X icon the input shows the empty string |
| `Search.TypingUnderSelection` | src/components/Search.tsx:78-79 | while a selection is shown, typing does not change what the input shows until a non-blank search starts |
| `Search.Dropdown` | src/components/Search.tsx:94-109 | the dropdown shows the loader, "No results" or the list exactly when the JSX condition of that block holds; the list shows every result's name in order |
| `Search.PanelsExclusive` | src/components/Search.tsx:101-109 | at most one of the three blocks shows, and "No results" needs a non-empty query |
| `Search.InitialInv` | src/components/Search.tsx:12-54 | after mounting, the pending timeout holds the query and falls due within 200 ms |
| `Search.StepInv` | src/components/Search.tsx:23-54 | every event keeps `Inv`: the one pending timeout carries the current query and is due within one delay, and the loader implies an unsettled lookup |
| `Search.RunInv` | src/components/Search.tsx:23-54 | `Inv` holds after any sequence of events |
| `Search.FiresCurrentQuery` | src/components/Search.tsx:26-27 | when the timeout fires, `performSearch` receives the query current at that moment |
| `Search.BurstSearchesNothing` | src/components/Search.tsx:23-29 | during a burst of keystrokes less than 200 ms apart no search runs, and one timeout then waits for the last text |
| `Search.DebounceSearchesLastText` | src/components/Search.tsx:23-29 | a burst followed by 200 ms of quiet runs exactly one search, with the burst's last text |
| `Search.LateResponseOverwrites` | src/components/Search.tsx:37-42 | a late answer for an older query replaces the results shown for the newer one and hides the loader while the newer lookup is still out |
| `Search.SearchBox.constructor` | src/components/Search.tsx:12-54 | the initial state, with the mount effect's debounced `""` pending |
| `Search.SearchBox.Debounced` | src/components/Search.tsx:25-28 | the debounced call clears the pending timer and sets one for its text |
| `Search.SearchBox.SetQuery` | src/components/Search.tsx:52-54 | `setQuery` plus the effect it triggers, as `WithQuery` |
| `Search.SearchBox.Type` | src/components/Search.tsx:79 | the input's onChange, as `WithQuery`, keeping `Inv` |
| `Search.SearchBox.PerformSearch` | src/components/Search.tsx:31-46 | the synchronous part of `performSearch`, as `AfterSearch` |
| `Search.SearchBox.Elapse` | src/components/Search.tsx:27 | the clock advances and a due timeout fires, as `Advance`, keeping `Inv` |
| `Search.SearchBox.LookupSettled` | src/components/Search.tsx:37-43 | the `try`/`catch`/`finally` after the lookup, as `Settle`, keeping `Inv` |
| `Search.SearchBox.Select` | src/components/Search.tsx:117-123 | returns the picked result's `lat` and `lon` for `onLocationSelect`, then moves the state as `Select` |
| `Search.SearchBox.Clear` | src/components/Search.tsx:86-90 | the X icon's handler, as `Clear`, keeping `Inv` |
| `Search.SearchBox.ClickOutside` | src/components/Search.tsx:57-63 | the outside-mousedown handler, as `ClickOutside`, keeping `Inv` |
| `Dashboard.ChooseCoordinates` | src/app/page.tsx:32-38 | a fetch happens exactly when both coordinates are truthy or the error is truthy |
| `Dashboard.ChosenCoordinatesAreSound` | src/app/page.tsx:33-36 | the fetched pair is the geolocated one, present and non-zero, whenever that is usable; otherwise it is the default and an error was reported |
| `Dashboard.DeniedFetchesDefault` | src/app/page.tsx:11-12 | with geolocation denied, the page fetches (51.5074, -0.1278) |
| `Dashboard.ZeroCoordinateFetchesNothing` | src/app/page.tsx:33 | a 0 latitude or longitude counts as absent, so with no error nothing is fetched |
| `Dashboard.Render` | src/app/page.tsx:49-55 | the spinner shows exactly while loading; the report shows exactly when not loading and data is present; otherwise nothing |
| `Dashboard.Settled` | src/app/page.tsx:21-26 | a successful response replaces the report; a failed request or reshaping keeps the previous one |
| `Dashboard.Home.constructor` | src/app/page.tsx:15-16 | the page starts loading with no report, so it shows the spinner |
| `Dashboard.Home.FetchWeather` | src/app/page.tsx:19-22 | `fetchWeather` turns the loader on and requests exactly the given coordinates |
| `Dashboard.Home.WeatherArrived` | src/app/page.tsx:22-29 | after the request settles the loader is off and the report is as `Settled` says |
| `Dashboard.Home.GeolocationChanged` | src/app/page.tsx:32-38 | the geolocation effect requests exactly `ChooseCoordinates`, and nothing when that is `None` |
| `Dashboard.Home.LocationPicked` | src/app/page.tsx:47 | a pick in the search box calls `fetchWeather` once with the picked candidate's coordinates |
| `Dashboard.Mount` | src/app/page.tsx:15-17 | on the first render the geolocation result is still empty, so nothing is fetched and the spinner shows |

## Left out

- HTTP requests, `response.json()`, API keys from the environment and URL
  building with `encodeURIComponent` are I/O. The adapters take the decoded
  payload. Network and JSON failures appear as a `None` response.
- The payload fields `main`, `wind`, `geometry` and the geocoder's `results`
  array are always present in the model. A payload without them would throw
  in the source.
- Api.SearchLocation: `formatted` is always a string in the model. In the
  source a result without it gives `display_name: undefined` and no error.
- `toLocaleDateString(..., { weekday: 'short' })` is locale library
  behaviour. The model takes the weekday labelling as a parameter
  `weekday: int -> string`, applied to `dt * 1000`.
- Api.Round: exact on reals; it does not model IEEE-754 doubles, so
  floating-point corner cases of `Math.round` are not captured.
- Dashboard.TruthyNumber: NaN is not modelled. NaN would also count as absent
  in the source.
- `WeatherDisplay.tsx` is presentational and not part of this model.
- `useGeolocation.ts` is not part of this model. Its output is the
  `Geolocation` input of the page's effect.
- React mechanics are not modelled: animations, focus on clear, and the
  `contains` test that tells an outside mousedown from an inside one. An
  inside mousedown is simply not an event.
- `console` logging is not modelled.
- Real timers are not modelled. Time is an integer clock that events advance.
- Search.BurstSearchesNothing: assumes every keystroke changes the text. A
  keystroke that leaves the query unchanged does not restart the timer,
  because React skips the effect.
- Overlapping `fetchWeather` calls are not ordered. `WeatherArrived` can
  follow any `FetchWeather`, and no property is stated about which
  completion wins.
