# Event Nexus client logic, modelled in Dafny

Event Nexus is a crowdsourced local-event discovery web application. People browse
events, narrow them by category, time window and free-text search, and submit new
events through a form. Storage lives in a hosted backend reached through its SDK.

This project models the three pieces of client logic that make decisions:

- **The filter pipeline and the controller state** (`src/App.jsx`). `filteredEvents` runs a
  category pass, a time pass ("today" or "weekend", computed from local midnight and the
  weekday) and a search pass. The controller holds the event list and the three filter
  settings. `handleAddEvent` and the Clear Filters button update them.
  Modules `EventFilter` (pure functions and lemmas) and `AppStore` (class `EventStore`).
- **The gateway's decision logic** (`src/lib/eventsApi.js`). This is the row transform of
  `fetchEvents` and the branching of `addEvent`: get or create the city, compute the stop
  time, insert the event, look up the vibe, link it.
  Module `EventsApi`. Every backend answer is an input, and `AddEvent` also returns the
  requests it would issue.
- **The event form** (`src/components/AddEventModal.jsx`). It holds the field values and
  the per-field error messages, and has change, validate, submit and close handlers.
  Module `AddEventModal`, class `Modal`.

Shared modules: `Wrappers` (Option, Result, a failing map), `JsString` (`trim`, ASCII
`toLowerCase`, `includes`), `Taxonomy` (the category and time-filter tables of
`src/data/mockEvents.js`), `ViewModel` (the event record, the `{ data, error }` reply,
the caught faults, millisecond instants).

Modelling conventions:

- Instants are integer milliseconds. A day is 86 400 000 ms and an hour 3 600 000 ms.
- The clock is an input: a `Clock` carries local midnight and `getDay()`.
- Date parsing (`new Date(string)`) is an input function returning `None` for an invalid date.
- JavaScript `null`/`undefined` are `None`, and "truthy string" means non-null and non-empty.

The model follows the code, including these easily misread behaviours:

- **Category filter.** An event whose `categories` array is empty is *excluded* by every
  category filter. The code checks the array whenever it exists and falls back to the scalar
  `category` only when there is no array (`src/App.jsx:75-79`). An empty array does not
  fall back to the scalar field. Every fetched event carries an array, so a fetched event
  without vibes is hidden by the "music" filter although its scalar category is "music"
  (`AppStore.FetchedEventsMatchByCategoriesOnly`).
- **Primary category.** It equals `categories[0]` only when the first vibe name is
  non-empty. An empty first name gives "music" while `categories[0]` is "".
- **Fetch failures.** A linked vibe without a name makes `v.toLowerCase()` throw, so the
  whole fetch returns `{ data: null, error }`. A missing `Event_Vibes` or `Cities` join is not
  an error; a link whose `Vibes` join is null is.
- **Invalid event date.** In `addEvent` an invalid date makes `toISOString()` throw after
  the city step has run, so the reply is an error. In the form, an invalid date string
  passes the "not in the past" rule, because a comparison with `NaN` is false.
- **Form reset.** The form is reset as soon as a valid form is handed to `onAddEvent`, before
  the add completes (`src/components/AddEventModal.jsx:132-133`). A failed add does not keep
  the entered values.
- **New-city input.** The free-text city input is rendered only while the location is
  `"__new__"` (`src/components/AddEventModal.jsx:260`), and its handler overwrites the location
  (line 265). On this reading of the code the input disappears after the first keystroke
  (`AddEventModal.Modal.EnterNewCity` requires the placeholder and leaves a plain location).
- **Saturday offset.** The `|| 7` offset is kept: on a Saturday the weekend window is the
  following Saturday and Sunday.

## Model

Four definitions carry no contract of their own and so have no row: `EventFilter.MatchesCategory`
and `EventFilter.MatchesSearch` (the `filter` callbacks of `src/App.jsx:73-80` and `113-117`),
`AddEventModal.FormErrors` (`newErrors`, `src/components/AddEventModal.jsx:65-106`) and
`AddEventModal.Submission` (`newEvent`, lines 122-130). Their behaviour is stated by the rows for
`CategoryPrecedence`, `SearchUsesUntrimmedQuery`, `ValidIffAllRulesPass`, `ValidateForm`,
`ValidSubmission` and `HandleSubmit`.

| member | source | states |
|---|---|---|
| `Wrappers.MapAll` | src/lib/eventsApi.js:40 | fails exactly when some element's step fails; otherwise the result has the input's length and holds each element's value at the same index |
| `JsString.TrimStartSuffix` | src/App.jsx:111 | the left-trimmed string is a suffix of the input, everything dropped is white space, and it does not start with white space |
| `JsString.TrimEndPrefix` | src/App.jsx:111 | the right-trimmed string is a prefix of the input, everything dropped is white space, and it does not end with white space |
| `JsString.Trim` | src/components/AddEventModal.jsx:67 | `trim()` is no longer than its input and neither starts nor ends with white space |
| `JsString.TrimSlice` | src/components/AddEventModal.jsx:94 | `trim()` is a contiguous slice with only white space outside it, and it is empty iff the input is all white space |
| `JsString.LowerChar` | src/App.jsx:112 | an upper-case ASCII letter becomes its lower-case counterpart (code point + 32), and every other character is unchanged |
| `JsString.Lower` | src/App.jsx:112-116 | lowercasing keeps the length, replaces each upper-case ASCII letter by its lower-case counterpart at the same index and changes nothing else |
| `JsString.IncludesAt` | src/App.jsx:114-116 | `s.includes(q)` holds iff `q` occurs in `s` at some position |
| `Taxonomy.SelectableCategoryIds` | src/components/AddEventModal.jsx:194-200 | the form's category options are exactly the table ids other than "all" |
| `EventFilter.Keep` | src/App.jsx:73 | `filter` returns a subsequence in original order whose members are exactly the input members passing the test |
| `EventFilter.KeepCounts` | src/App.jsx:73 | `filter` keeps every copy of a passing value and no copy of a failing one, counted per value |
| `EventFilter.DaysUntilSaturday` | src/App.jsx:90 | the Saturday offset is 1 to 7 days, it is 7 exactly on a Saturday, and it always lands on weekday 6 |
| `EventFilter.CategoryPass` | src/App.jsx:72-81 | the category pass keeps a subsequence; with "all" every event survives, otherwise exactly those matching the category test |
| `EventFilter.TimePass` | src/App.jsx:98-108 | the time pass keeps exactly the events in the "today" or "weekend" window; any other setting keeps everything |
| `EventFilter.SearchPass` | src/App.jsx:111-118 | a blank query keeps everything; otherwise exactly the events matching the search test survive |
| `EventFilter.FilteredEvents` | src/App.jsx:68-121 | the result is a subsequence of the events, so `events` is not modified and order is kept; an event is in it iff it passes every active test |
| `EventFilter.FilteredCounts` | src/App.jsx:68-121 | every copy of a selected event survives the three passes, and no copy of a rejected one |
| `EventFilter.FilteredIsKeep` | src/App.jsx:68-121 | the three successive passes equal one filter with the combined test, duplicates and order included |
| `EventFilter.FilterOffIsIdentity` | src/App.jsx:72 | with category "all", time "all" and a blank query the result is the whole list |
| `EventFilter.FilterUnchangedIff` | src/App.jsx:68-121 | the result equals the input iff every event passes every active test |
| `EventFilter.FilterIdempotent` | src/App.jsx:68-121 | filtering the output again with the same criteria and clock returns it unchanged |
| `EventFilter.CategoryPrecedence` | src/App.jsx:75-79 | with an array, membership in it alone decides, so an empty array matches nothing; without one, the scalar category is compared |
| `EventFilter.TodayWindow` | src/App.jsx:85-87 | "today" keeps exactly the events with `today <= date < today + 1 day` |
| `EventFilter.WeekendWindow` | src/App.jsx:91-107 | Saturday is 1 to 7 days ahead (7 on a Saturday), and "weekend" keeps exactly `saturday <= date < saturday + 2 days` |
| `EventFilter.WindowsDisjoint` | src/App.jsx:98-107 | no event is in both windows, so no event survives both the "today" and the "weekend" filter |
| `EventFilter.SearchUsesUntrimmedQuery` | src/App.jsx:111-117 | for a non-blank query, an event matches iff the lowercased untrimmed query occurs in its lowercased title, location or description |
| `EventFilter.WeekendScenario` | src/App.jsx:103-107 | of events dated today, tomorrow and on the coming Saturday, "weekend" keeps only the Saturday one, and on a Friday also tomorrow's |
| `EventFilter.SearchIgnoresCase` | src/App.jsx:112-114 | the query "NEON" finds the title "Neon Nights Music Festival" |
| `EventsApi.OrElse` | src/lib/eventsApi.js:34 | `s \|\| fallback` yields `s` when it is a non-empty string and the fallback otherwise |
| `EventsApi.LinkedNames` | src/lib/eventsApi.js:32 | the vibe names are one per `Event_Vibes` element in backend order, and none without `Event_Vibes` |
| `EventsApi.Normalize` | src/lib/eventsApi.js:31-52 | a row is transformed iff every linked vibe has a name; `id`, title, `date` = `start`, `start`, `stop`, `city_id` and the timestamps are copied verbatim |
| `EventsApi.NormalizedCategories` | src/lib/eventsApi.js:40 | `categories` is always an array: the linked names lowercased in backend order, empty without `Event_Vibes` |
| `EventsApi.NormalizedPrimaryCategory` | src/lib/eventsApi.js:33 | `category` is the lowercased first name and equals `categories[0]` when that name is non-empty; otherwise it is "music" |
| `EventsApi.NormalizedDefaults` | src/lib/eventsApi.js:42-44 | location is the city name, else the row's location, else "Unknown Location"; description and image fall back to their fixed defaults |
| `EventsApi.BareRowDefaults` | src/lib/eventsApi.js:32-44 | a row without vibes, city, location or description gives "music", `[]`, "Unknown Location" and "No description available" |
| `EventsApi.FetchEvents` | src/lib/eventsApi.js:25-58 | exactly one of data and error is set; a query error passes through; otherwise rows map one-to-one in order, or a throwing row gives a TypeError |
| `EventsApi.CityRequests` | src/lib/eventsApi.js:69-92 | the city step issues the lookup first, and a create only when no city matched |
| `EventsApi.ResolvedCity` | src/lib/eventsApi.js:69-92 | the city id is the existing city's, else the created city's, else null |
| `EventsApi.AddEvent` | src/lib/eventsApi.js:66-180 | exactly one of data and error is set; only an invalid date or a failed event insert fails, so city failures never abort; the insert carries the resolved city and `stop = start + 2 h`; success returns the input's category, `[category]` and location, omitting the timestamps only when the vibe lookup fails; the link uses the event and vibe ids; on each path the requests come in source order: city lookup, city create when none matched, event insert, vibe lookup, junction insert |
| `AppStore.EventStore.Visible` | src/App.jsx:68-121 | the visible list is a subsequence of the store's events and is all of them when the filters are cleared |
| `AppStore.EventStore.constructor` | src/App.jsx:10-16 | the store starts with no events, every filter off and no load error |
| `AppStore.EventStore.LoadEvents` | src/App.jsx:23-36 | an error reply records the message and keeps the list; otherwise the list becomes the data, or empty without data; filters are kept |
| `AppStore.EventStore.HandleAddEvent` | src/App.jsx:38-65 | on success the event is prepended, every filter is cleared and the whole list is visible; an error or a reply without data changes nothing |
| `AppStore.EventStore.ClearFilters` | src/App.jsx:151-155 | every filter is off, the list is unchanged and all of it is visible |
| `AppStore.EventStore.SetCategory` | src/App.jsx:11 | the selected category becomes the given id and nothing else changes |
| `AppStore.EventStore.SetTime` | src/App.jsx:12 | the selected time filter becomes the given id and nothing else changes |
| `AppStore.EventStore.SetSearchQuery` | src/App.jsx:13 | the search query becomes the given text and nothing else changes |
| `AppStore.FetchedEventsMatchByCategoriesOnly` | src/App.jsx:75-79 | a fetched event matches a category iff the category is in its `categories`, so a fetched event without vibes matches none although its scalar category is "music" |
| `AddEventModal.IconFor` | src/components/AddEventModal.jsx:39-48 | the icon is defined iff the category has an entry in `categoryIcons`, and then it is that entry |
| `AddEventModal.WithField` | src/components/AddEventModal.jsx:52-57 | the named field takes the value, no other field changes, and the image changes only on a category change, to that category's icon |
| `AddEventModal.TitleError` | src/components/AddEventModal.jsx:67-71 | a title passes iff it is non-blank and at most 100 raw characters; blank gives "required", longer gives "too long" |
| `AddEventModal.CategoryError` | src/components/AddEventModal.jsx:73-75 | a category passes iff it is non-empty |
| `AddEventModal.DateError` | src/components/AddEventModal.jsx:77-88 | a date passes iff it is non-empty and does not parse to an instant before today's midnight; an empty date gives "required", otherwise "in the past" |
| `AddEventModal.TimeError` | src/components/AddEventModal.jsx:90-92 | a time passes iff it is non-empty |
| `AddEventModal.LocationError` | src/components/AddEventModal.jsx:94-98 | a location passes iff it is non-blank and at most 100 raw characters |
| `AddEventModal.DescriptionError` | src/components/AddEventModal.jsx:100-106 | a description passes iff it is non-blank with 10 to 500 raw characters, with "required", "too short" and "too long" in that precedence |
| `AddEventModal.ValidIffAllRulesPass` | src/components/AddEventModal.jsx:108-109 | the error map is empty iff every field rule passes |
| `AddEventModal.ValidSubmission` | src/components/AddEventModal.jsx:119-130 | a valid form submits a non-empty trimmed title of at most 100 characters, a non-empty location of at most 100 characters, a non-empty description of at most 500 characters, `date + "T" + time + ":00"`, and an icon for every offered category |
| `AddEventModal.PaddedDescriptionPassesShort` | src/components/AddEventModal.jsx:102-106 | a description padded to 10 characters passes the length rule and is submitted trimmed to 9 |
| `AddEventModal.NewCitySentinelPasses` | src/components/AddEventModal.jsx:258-260 | the "__new__" option value passes the location rule and is submitted as the location |
| `AddEventModal.IconTablesAgree` | src/components/AddEventModal.jsx:39-48 | `categoryIcons` gives every non-"all" category of the category table that table's icon, and the initial image is the initial category's icon |
| `AddEventModal.EverySelectableCategoryHasIcon` | src/components/AddEventModal.jsx:194-200 | every category the form offers has an icon, so a category change never sets the image to `undefined` |
| `AddEventModal.Modal.constructor` | src/components/AddEventModal.jsx:7-17 | the form starts at its initial values with no errors |
| `AddEventModal.Modal.HandleChange` | src/components/AddEventModal.jsx:50-62 | only the named field changes, plus the image on a category change; only that field's message is blanked, others are unchanged |
| `AddEventModal.Modal.EnterNewCity` | src/components/AddEventModal.jsx:261-268 | the new-city input sets only the location and leaves the errors |
| `AddEventModal.Modal.ValidateForm` | src/components/AddEventModal.jsx:64-110 | the stored errors are the map of failing rules, and the result is true iff it is empty |
| `AddEventModal.Modal.HandleClose` | src/components/AddEventModal.jsx:136-148 | the form returns to category "music", image music icon, every other field empty, and no errors |
| `AddEventModal.Modal.HandleSubmit` | src/components/AddEventModal.jsx:112-134 | an event is submitted iff the form is valid, and then it is the trimmed submission and the form is reset; otherwise the form is kept and shows its errors |

## Left out

- The backend SDK, `async`/`await`, logging, `alert` and rendering. Backend answers are inputs. A success answer is assumed to carry data, as the `{ data, error }` convention promises, so `data?.map` on null data is not modelled.
- Exceptions thrown inside SDK calls and caught by the `catch` blocks. Only the throws the client code itself causes are modelled: a nameless vibe (TypeError) and an invalid date (RangeError).
- The event row returned by the insert is modelled as the inserted values plus the backend-assigned id and timestamps. Database triggers or defaults that rewrite columns are not modelled.
- The query's ordering by start time, and the case-insensitive (`ilike`) city and vibe lookups. Their answers are inputs.
- `fetchCities`, `deleteEvent`, `updateEvent`, the cities list in the form, loading flags, the `isOpen` effect and `onClose`. They are SDK wrappers or rendering state without decisions.
- Temporary `Date.now()` ids and the race between a fetch and an add. These are clock and interleaving effects.
- Calendar arithmetic. Days are a fixed 86 400 000 ms and hours 3 600 000 ms, so DST shifts in `setDate`/`setHours` are not modelled. So is the UTC-versus-local parse of a bare `YYYY-MM-DD` date.
- AppStore.EventStore.Visible: the clock is a parameter. The memo reads `new Date()` only when the events or a filter change (`src/App.jsx:84`, `121`), so after midnight with nothing changed "today" still shows the previous day's window. The model does not capture that stale reading.
- Event dates that do not parse. Every event date is a valid instant.
- JsString.Lower: only ASCII letters are lowercased, because full Unicode case mapping is out of scope.
- Lengths are counted in code points, while JavaScript's `.length` counts UTF-16 code units. The two differ for characters outside the Basic Multilingual Plane.
- A null `event_title` in a fetched row, which would make the search pass throw.
- The category table's display `order` field and the time-filter labels, which only affect rendering.
