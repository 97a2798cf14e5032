# Country Explorer: live clock and login, modelled in Dafny

Country Explorer is a browser application for looking up countries. Two of
its pages hold logic beyond rendering, and this project models them.

- **The live country clock** (`src/pages/LiveTimer.jsx`). The user types a
  country name. A fixed table maps ten common names to IANA time-zone
  identifiers, and the table is tried first. Any other name is resolved by
  the remote country service, and the page then uses the first UTC offset
  string (`UTC+05:45`) of the first record returned. Once a second, the
  page shows the time in the selected zone or at the selected offset. The
  offset formatter `getTimeWithOffset` finds the first `UTC[+-]DD:DD` in a
  string. It turns the match into signed minutes, adds them to the current
  instant and shows the time of day as `HH:MM:SS`. While the user types,
  the page also keeps a list of suggestions.
- **The login form** (`src/pages/Login.jsx`). An email is accepted
  exactly when it contains `@`. The handler then sets the error text and
  the toast, and it calls `login` with the email as typed.

Files:

- `wrappers.dfy`: `Option`, which stands for JavaScript's `null`/`undefined`.
- `js_text.dfy` (module `JsText`): `String.prototype.trim` over the
  ECMAScript whitespace set, and `includes`.
- `offset_clock.dfy` (module `OffsetClock`): the offset parser, the
  wall-clock arithmetic and the `HH:MM:SS` rendering. These are functions
  and lemmas, because the source is pure here.
- `zone_table.dfy` (module `ZoneTable`): the country→zone table. It has an
  own-key lookup, and it also models the lookup as the source writes it
  (see Findings).
- `live_timer.dfy` (module `LiveTimerPage`): the class `LiveTimer`. Its
  fields are the page's `useState` cells, and its methods run the
  handlers and effects. The pure `StartOutcome` and `ApplyResponse`
  specify the two halves of a search, on either side of its `await`.
  `SearchOutcome` specifies a search with nothing in between, and lemmas
  about it give the three possible endings.
- `login.dfy` (module `LoginPage`): the class `LoginForm` and the pure
  `Submit`, which specifies what it does.

Inputs in place of I/O:

- The remote service's answer is a `Response` parameter: `NetErr` or
  `Ok(records)`.
- The current instant is a parameter, `nowMillis`, in epoch milliseconds.
- The engine's rendering of an IANA zone is a parameter, `zoneText`.
- Calls to `login` are recorded in the field `LoginForm.logins`.

Behaviour of the code worth knowing:

- The suggestion list takes whatever response arrives. No check compares
  it with the current query. A search answered late therefore overwrites
  later results.
- A country search works the same way. Its request is not tied to the
  search that sent it, so a late response lands on whatever a newer search
  left. A late failure can put "Country not found." beside a selected
  zone, and a late success replaces the newer selection. The model splits
  the handler at its `await` into `BeginSearch` and `CompleteSearch` so
  that such interleavings can be stated (`LateResponseLandsOnNewerSearch`,
  `OverlappingSearchScenario`).
- A failed offset parse stores `null` in `time`. It does not keep the
  previous value.
- An empty selection is `""` in every cell, not `null`.
- If the service returns `""` as the first timezone, the search ends with
  neither a zone nor an offset. So the class invariant is "never both",
  not "exactly one".

## Model

| member | source | states |
|---|---|---|
| JsText.TrimStart | src/pages/LiveTimer.jsx:74 | the result is a suffix of the input; everything removed is whitespace; the result does not start with whitespace |
| JsText.TrimEnd | src/pages/LiveTimer.jsx:74 | the result is a prefix of the input; everything removed is whitespace; the result does not end with whitespace |
| JsText.Trim | src/pages/LiveTimer.jsx:104 | the result is a contiguous part of the input, everything before and after it is whitespace, and it neither starts nor ends with whitespace |
| JsText.TrimEmptyIffBlank | src/pages/LiveTimer.jsx:74 | `search.trim()` is empty exactly when the query is all whitespace (both directions) |
| JsText.TrimIdempotent | src/pages/LiveTimer.jsx:104 | trimming an already trimmed query changes nothing |
| OffsetClock.FirstMatch | src/pages/LiveTimer.jsx:23 | the index returned is a match, and no earlier index from the start point is one; `None` means there is no match at all from the start point |
| OffsetClock.OffsetAt | src/pages/LiveTimer.jsx:25-27 | a `+` sign gives hours*60+minutes; a `-` sign gives its negation |
| OffsetClock.ParseOffset | src/pages/LiveTimer.jsx:23-27 | `None` (null) exactly when no substring matches `UTC[+-]\d{2}:\d{2}`; otherwise the offset lies within ±(99*60+99) minutes |
| OffsetClock.ParseOffsetLeftmost | src/pages/LiveTimer.jsx:23 | the offset is the one of the leftmost match, wherever that match is |
| OffsetClock.ParseOffsetIgnoresSuffix | src/pages/LiveTimer.jsx:23 | appending text after a string that already holds a match does not change the offset (`UTC+05:300` reads as +330) |
| OffsetClock.ParseOffsetSkipsPrefix | src/pages/LiveTimer.jsx:23 | the match is unanchored: a leading prefix without `U` is skipped |
| OffsetClock.ParseOffsetSign | src/pages/LiveTimer.jsx:25-32 | `+` gives a non-negative shift and `-` a non-positive one; the shift is zero exactly when both fields are 00 |
| OffsetClock.ParseOffsetExamples | src/pages/LiveTimer.jsx:21-27 | +05:30 is 330; -04:00 is -240; +00:00 is 0; `UTC+05:300` is 330; `UTC+99:99` is 6039; `UTC+5:3`, `banana` and `UTC` are null |
| OffsetClock.DisplayedSecondOfDay | src/pages/LiveTimer.jsx:28-34 | the shown second of the day lies in [0, 86400) and is congruent, modulo one day, to the UTC instant plus the offset |
| OffsetClock.ZeroOffsetShowsUtc | src/pages/LiveTimer.jsx:30-34 | a zero offset shows the UTC second of the day |
| OffsetClock.TickAdvancesOneSecond | src/pages/LiveTimer.jsx:63-67 | an instant 1000 ms later shows one second later, wrapping at midnight (an interval that fires late or drifts can skip a second) |
| OffsetClock.OneHourEastIsOneHourLater | src/pages/LiveTimer.jsx:32-34 | 60 more minutes of offset show a time one hour later, modulo one day |
| OffsetClock.ToTimeOfDay | src/pages/LiveTimer.jsx:35 | a second of the day splits into an hour below 24, a minute below 60 and a second below 60 that add back up to it |
| OffsetClock.ToTimeOfDayOfSecondOfDay | src/pages/LiveTimer.jsx:35 | splitting is the inverse of counting seconds for every valid time of day |
| OffsetClock.Pad2 | src/pages/LiveTimer.jsx:35 | two ASCII digits whose value reads back as the number (2-digit field) |
| OffsetClock.FormatTime | src/pages/LiveTimer.jsx:35 | the output has the shape `DD:DD:DD`, and reading its fields back gives the time itself (round trip) |
| OffsetClock.TimeWithOffset | src/pages/LiveTimer.jsx:21-36 | null exactly when no offset matches; otherwise `HH:MM:SS` text of a valid 24-hour time whose second of the day is the shifted instant's |
| OffsetClock.ZeroOffsetStringShowsUtc | src/pages/LiveTimer.jsx:21-36 | `UTC+00:00` shows the UTC time itself |
| OffsetClock.TimeWithOffsetExamples | src/pages/LiveTimer.jsx:21-36 | at 00:00:00 UTC, `UTC+05:30` shows `05:30:00`, `UTC-04:00` shows `20:00:00`, and `UTC+5:3` shows null |
| ZoneTable.ZoneFor | src/pages/LiveTimer.jsx:7-19 | a zone exactly for an own key of the table, and then that key's own zone, never empty |
| ZoneTable.ZoneForExamples | src/pages/LiveTimer.jsx:9-11 | `India` gives Asia/Kolkata and `Japan` gives Asia/Tokyo; lookup is case-sensitive and untrimmed, so `india`, ` India` and `Nepal` miss |
| ZoneTable.PropertyLookup | src/pages/LiveTimer.jsx:114 | the property read is undefined exactly for names that are neither own keys nor inherited member names; it is a zone string exactly for own keys |
| ZoneTable.InheritedNameTakesTableBranch | src/pages/LiveTimer.jsx:114-115 | as written, `constructor` passes the `if (tz)` guard even though it has no zone |
| ZoneTable.ZoneForIsOwnKeyLookup | src/pages/LiveTimer.jsx:114-115 | the corrected lookup takes the table branch exactly when the written one yields a zone string; the two agree on all names except inherited members |
| LiveTimerPage.FlagFor | src/pages/LiveTimer.jsx:130 | the svg link if it is non-empty, else the png link, else `""` |
| LiveTimerPage.SearchOutcome | src/pages/LiveTimer.jsx:107-137 | for a search with no other in between: never both a zone and an offset; an error comes only with a cleared selection and is one of the two messages; there is a zone exactly on a table hit; there is no error exactly on a table hit or a usable first record |
| LiveTimerPage.StartOutcome | src/pages/LiveTimer.jsx:108-121 | up to the `await`: no error, offset or flag; a zone exactly on a table hit, with that name and the table's zone; otherwise everything cleared |
| LiveTimerPage.ApplyResponse | src/pages/LiveTimer.jsx:124-135 | applied to any cells: a usable first record sets its name, first timezone and flag, with no zone and no error; any other outcome keeps country, zone, offset and flag and sets "Timezone not found for this country." when there is no record or the first has no timezones, else "Country not found."; never both a zone and an offset is preserved |
| LiveTimerPage.SearchIsStartThenResponse | src/pages/LiveTimer.jsx:107-137 | with nothing in between, the two halves compose to the whole search |
| LiveTimerPage.LateResponseLandsOnNewerSearch | src/pages/LiveTimer.jsx:122-135 | a late failure of a `Nepal` request after `India` was picked leaves "Country not found." beside India's zone; a late success replaces India with Nepal |
| LiveTimerPage.SearchEndsInOneOfThree | src/pages/LiveTimer.jsx:114-136 | a search ends as a zone selection (on a table hit, with that name and zone), an offset selection (first record's name, first timezone and flag) or an error (`Timezone not found for this country.` for no record or no timezones; otherwise `Country not found.`) |
| LiveTimerPage.TableHitIgnoresResponse | src/pages/LiveTimer.jsx:114-121 | on a table hit the outcome does not depend on the service |
| LiveTimerPage.SearchExamples | src/pages/LiveTimer.jsx:114-136 | `India` gives Asia/Kolkata even when the network fails; `Nepal` shows the service's `UTC+05:45`; an empty answer and a network failure give the two messages |
| LiveTimerPage.ChooseTickMode | src/pages/LiveTimer.jsx:50-70 | zone formatting exactly when a zone is set; the offset formatter exactly when no zone but an offset is set; otherwise no interval |
| LiveTimerPage.TickModeAfterSearch | src/pages/LiveTimer.jsx:50-70 | after a search the tick uses the table zone, or the service's first offset; after an error it does not run |
| LiveTimerPage.SuggestionNames | src/pages/LiveTimer.jsx:83 | the list holds every record's common name, in order; it is absent exactly when some record has no name |
| LiveTimerPage.LiveTimer.constructor | src/pages/LiveTimer.jsx:39-48 | every cell starts empty, false or `[]` |
| LiveTimerPage.LiveTimer.ClearSelection | src/pages/LiveTimer.jsx:108-113 | error, time, timezone, country, offsetString and flagUrl are cleared; nothing else changes |
| LiveTimerPage.LiveTimer.BeginSearch | src/pages/LiveTimer.jsx:107-121 | the cells become `StartOutcome`; `time` is cleared; a request is pending exactly when the name is not an own key of the table; the query and the suggestion cells are kept; the invariant (never both a zone and an offset, zone from the table, error one of the two messages) holds |
| LiveTimerPage.LiveTimer.CompleteSearch | src/pages/LiveTimer.jsx:122-136 | the cells become `ApplyResponse` of whatever they hold when the response arrives; `time`, the query and the suggestion cells are kept; the invariant is preserved in any interleaving |
| LiveTimerPage.LiveTimer.HandleSearchCountry | src/pages/LiveTimer.jsx:107-137 | with no other search in between, the cells become `SearchOutcome`; `time` is cleared; a request is made exactly when the name is not an own key of the table; the invariant holds afterwards |
| LiveTimerPage.LiveTimer.HandleSearch | src/pages/LiveTimer.jsx:101-105 | hides the list and starts a search for the trimmed query; `time` is cleared; query, suggestions and loading flag are kept |
| LiveTimerPage.LiveTimer.HandleSuggestionClick | src/pages/LiveTimer.jsx:95-99 | the name becomes the query; the list is hidden; a search for the untrimmed name starts; `time` is cleared; suggestions and loading flag are kept |
| LiveTimerPage.LiveTimer.Tick | src/pages/LiveTimer.jsx:52-67 | follows `ChooseTickMode`; in offset mode `time` becomes the formatter's result, null included; without a mode `time` is untouched |
| LiveTimerPage.LiveTimer.OnSearchChanged | src/pages/LiveTimer.jsx:73-80 | a blank query clears and hides the list and schedules nothing; any other query sets loading and schedules a fetch for the trimmed text |
| LiveTimerPage.LiveTimer.CompleteSuggestionFetch | src/pages/LiveTimer.jsx:81-90 | on success the names are shown; on failure the list is emptied and hidden; loading ends either way |
| LoginPage.Submit | src/pages/Login.jsx:16-25 | a submission is rejected exactly when the email has no `@`; on rejection the error and the error toast are set and `login` is not called; on acceptance the error is empty, `login` gets the email unchanged and the success toast is shown; exactly one toast type |
| LoginPage.SubmitExamples | src/pages/Login.jsx:18 | any text with an `@`, including `"@"` alone, is accepted as typed; `""` and text without `@` are rejected |
| LoginPage.LoginForm.constructor | src/pages/Login.jsx:9-11 | empty email and error; hidden toast |
| LoginPage.LoginForm.SetEmail | src/pages/Login.jsx:68 | the field holds the typed text |
| LoginPage.LoginForm.HandleSubmit | src/pages/Login.jsx:16-25 | accepted exactly when the email has `@`; error and toast become `Submit(email)`'s; `login` is called once, with the email, exactly on acceptance |

## Findings

| source | as written | input that shows it | evidently intended | confidence | as-written member | corrected member |
|---|---|---|---|---|---|---|
| src/pages/LiveTimer.jsx:114-115 | `countryToTimezone[countryName]` also reads properties that the object literal inherits from `Object.prototype`. The inherited value is truthy, so the table branch at :115-120 is taken and no request is made. The zone cell gets whatever React's setter makes of that value: a function is called as an updater, so the result may be a non-zone value, `false`, or a thrown error. | `constructor` (likewise `toString`, `__proto__`, `valueOf`) | Only the table's own keys select a zone; any other name goes to the service. | high, not executed | ZoneTable.InheritedNameTakesTableBranch | ZoneTable.ZoneForIsOwnKeyLookup |

`LiveTimer.BeginSearch` uses the corrected `ZoneFor`.

## Left out

- Rendering and animation are presentation only and are not modelled. This covers the JSX of both pages, `Layout.jsx`, `CountryCard.jsx`, `App.jsx` and `router.jsx`.
- HTTP requests to the country service are not made. Each response is a parameter, and building the URL with `encodeURIComponent` is not modelled.
- Timers and React's effect lifecycle are not modelled: `setInterval`, the 300 ms debounce `setTimeout` and its cancellation, `clearInterval` on cleanup, and the 2.5 s reset of the login toast followed by navigation. `Tick` is one run of the interval body. `OnSearchChanged` returns the fetch it would schedule.
- React's batching of state updates is not modelled. Each half of a handler, on either side of an `await`, is one atomic step.
- LiveTimerPage.LiveTimer.BeginSearch: it uses the corrected own-key lookup. For an inherited name such as `constructor`, the model reports a pending request and clears the zone, while the source takes the table branch with no request. The same holds for `HandleSearchCountry`, `HandleSearch` and `HandleSuggestionClick`, which begin with it (a query that trims to `constructor` is reported as pending).
- LiveTimerPage.LiveTimer.HandleSearchCountry: for an inherited name such as `constructor` it returns `requested` as true and clears the zone, because it begins with `BeginSearch`; the source makes no request there.
- LiveTimerPage.LiveTimer.HandleSuggestionClick: when `name` differs from the current query, the source's change of `search` re-runs the suggestion effect (src/pages/LiveTimer.jsx:73-93), which about 300 ms later fetches the list again; the list is shown only if that fetch succeeds (src/pages/LiveTimer.jsx:83-84). The method does not do this itself; a caller models it with `OnSearchChanged(name)` and `CompleteSuggestionFetch`, and only in that case. When `name` equals the query, the effect does not re-run and the list stays hidden.
- LiveTimerPage.LiveTimer.Tick: in zone mode the displayed text is the `zoneText` input. Formatting an IANA zone needs the engine's time-zone database and daylight-saving rules, which are not available here.
- `Date`, `getTimezoneOffset` and the host's own time zone are not modelled. The shown time is computed from UTC and the offset. The source instead renders a shifted instant in the host zone, so around a host daylight-saving change it can be off by the host's shift. Engines that print midnight as `24` with `hour12: false` are not modelled either. Nor is `toLocaleTimeString([], …)` using the host's locale, where some locales print other digits or separators than `HH:MM:SS` in ASCII.
- A record whose `name` exists but lacks `common` is not modelled. Only a missing `name` is.
- The input's `onFocus` handler (src/pages/LiveTimer.jsx:171) is not modelled, nor the toast's close button (src/pages/Login.jsx:39).
- The browser's own checks on the email field (`type="email"`, `required`) run before `handleSubmit` and are not modelled. Only the handler's `@` test is.
- The `login` function and `AuthContext` are not part of this model. A call to it is recorded as an entry of `logins`.
