# CityCare backend and front-end helpers in Dafny

This project models the CityCare demo health-coordination service. The model
covers three parts:

- The request handlers of its FastAPI backend (`main.py`). Patients register
  and update their records, appointments are booked and listed per doctor,
  alerts are created, the facility catalogue is seeded on first use, and
  login assigns a role.
- The pure parts of the shared page header script (`common.js`): the alert
  audience key, the body theme classes, the navigation links and the login
  button's input guard.
- The live-monitor chart (`monitor.js`): a 30-point sliding window over
  parallel data and label sequences, the history refill, and the axis unit and
  dataset label.

The backend state is four sequences of immutable records (`Backend.Store`).
Each mutating handler is a pure function that returns the new store, the reply
(a body or an `HttpError` with the source's status code and detail text) and
`saved`, the JSON file the handler rewrites. The clock is the parameter `now`
(milliseconds). Pydantic defaults are modelled: a request body
(`Records.PatientBody`) marks each optional field as `Omitted` or `Sent`, and
`Records.FromBody` fills in the defaults declared on the `Patient` model.

Modules: `Outcomes` (Option/Result), `Seqs` (first match, filter, subsequence),
`Strings` (prefix, first-occurrence replace, ASCII case, JavaScript trim),
`Records`, `Backend`, `StoreProperties` (lemmas relating several handlers),
`Header` (common.js), `Monitor` (monitor.js).

## Behaviour as written

Three behaviours of `main.py` that a reader might not expect:

- Registration is a plain append (main.py:147-158), not an upsert. An
  identifier already present is stored a second time
  (`StoreProperties.RegisterAddsDuplicate`). Lookups keep returning the first
  record (`StoreProperties.RegisterThenGet`).
- An update replaces the matched record with the submitted body
  (main.py:179-182). It does not patch fields. Fields the caller leaves out go
  back to their defaults (`StoreProperties.UpdateResetsOmittedFields`), and
  there is no "changed" flag.
- An unknown identifier and a wrong PIN give the same 404, "Patient not found
  or invalid PIN." (main.py:185). There is no separate Unauthorized error
  (`StoreProperties.UpdateErrorHidesExistence`).

Since identifiers can repeat, an update keyed on identifier and PIN can change
a later duplicate that `GET /patients/{user_id}` never returns
(`StoreProperties.UpdateBehindShadowIsInvisible`).

## Model

| member | source | states |
|---|---|---|
| Backend.DoctorPrefixIgnoresCase | main.py:122 | "the lower-cased id starts with doc" holds exactly when its first three characters are d, o, c in any case |
| Backend.Login | main.py:115-126 | a doctor id logs in as "doctor" only with PIN "1234", otherwise 401 "Invalid Doctor PIN."; any other id logs in as "patient" whatever the PIN |
| Backend.GetFacilities | main.py:131-142 | an empty catalogue becomes the four fixed facilities and the facilities file is written; a non-empty one is returned unchanged and nothing is written; other collections untouched |
| StoreProperties.GetFacilitiesIdempotent | main.py:131-142 | a second facilities request changes nothing and writes nothing; after one request the catalogue is non-empty |
| Records.OmittedFieldsTakeDefaults | main.py:76-96 | a patient body with only user_id and pin yields the record with every declared default (empty texts, no numbers, consent "none", empty share list, no timestamps) |
| Backend.RegisterPatient | main.py:147-158 | the list grows by exactly one, the old list is a prefix, the new last record is the reply, equals the submitted record apart from timestamps, and has created_at = updated_at = now; only the patients file is written |
| StoreProperties.RegisterAddsDuplicate | main.py:147-158 | registering an identifier always adds one more record with it: no duplicate check |
| StoreProperties.RegisterThenGet | main.py:147-169 | after registering, a lookup of that id returns the new record if the id was unused, and otherwise the same earlier record as before |
| StoreProperties.ListingsFollowInsertionOrder | main.py:156-218 | the patient, appointment and alert listings after a create call are the earlier listing followed by the new record |
| Seqs.FirstWhere | main.py:166-168 | the scan returns the first position whose element passes the test, and none exactly when no element passes |
| Backend.GetPatientById | main.py:164-169 | the reply is the first record with that user_id; 404 "Patient not found" exactly when no record has it |
| Backend.UpdatePatient | main.py:171-185 | at the first index matching both user_id and pin, the record becomes the submitted one with the old created_at and updated_at = now; every other index and collection is unchanged; with no such index, the one 404 is returned and nothing changes or is written |
| StoreProperties.UpdateKeepsCredentials | main.py:177-182 | after any update every position keeps its user_id and pin |
| StoreProperties.UpdateResetsOmittedFields | main.py:179-182 | an update whose body carries only the credentials resets the matched record to the defaults, keeping only its created_at |
| StoreProperties.UpdateTwiceIsUpdateOnce | main.py:176-184 | repeating the same update hits the same record; the result is the same as a single update at the later time |
| StoreProperties.RegisterThenUpdate | main.py:147-184 | an update right after a registration with fresh credentials replaces the new record and keeps its creation time |
| StoreProperties.UpdateBehindShadowIsInvisible | main.py:164-185 | when an earlier record has the same id with another pin, an update leaves the lookup reply unchanged |
| StoreProperties.UpdateErrorHidesExistence | main.py:177-185 | any two stores with no credential match give the same update reply, so "unknown id" and "wrong pin" cannot be told apart |
| Backend.BookAppointment | main.py:190-195 | the appointment is appended at the end, the old list is a prefix, and only the appointments file is written |
| Seqs.Filter | main.py:203 | the comprehension keeps exactly the passing elements: all kept pass, every passing element is kept, the count matches, and the result is a subsequence |
| Seqs.FilterUnique | main.py:203 | any subsequence of passing elements with as many elements as pass is the filter |
| Backend.ListForDoctor | main.py:201-203 | the result holds only that doctor's appointments and all of them; its length is their count; it is a subsequence of the bookings (order kept) |
| StoreProperties.ListForDoctorIsExact | main.py:201-203 | the doctor listing is the only order-preserving selection of the doctor's appointments that omits none |
| StoreProperties.BookThenListForDoctor | main.py:190-203 | a booking with doctor d adds it last to d's listing and leaves other doctors' listings unchanged |
| Backend.CreateAlert | main.py:208-214 | the alert is appended with ts = now replacing any sent ts; all other fields are as sent; only the alerts file is written |
| Backend.Health | main.py:223-231 | the report is ok and counts the patients, appointments, alerts and facilities |
| StoreProperties.HealthTracksHandlers | main.py:223-231 | each create call raises exactly its own counter by one; an update changes no counter; seeding sets facilities to 4 |
| Strings.ReplaceFirst | common.js:23 | with no occurrence the string is unchanged; otherwise only the first occurrence is replaced |
| Strings.Trim | common.js:160-161 | the result is the input with only white space cut from its start and its end (it stands in the input with white space alone before and after it); it is empty exactly when the input is all white space, and otherwise has no white space at either end |
| Header.AudienceForAlerts | common.js:17-29 | null without a session or user; for role "patient", "patient:" and the id with its first "USR_PAT_" turned into "PAT_"; for any other role (a missing one counting as ""), "role:" and the role |
| Header.PortalPatientAudience | common.js:20-24 | the id "USR_PAT_" + n gives the audience "patient:PAT_" + n |
| Header.LoginSessionAudience | common.js:17-25 | the session from a successful backend login gives doctors "role:doctor" and everyone else their patient key |
| Header.SetTheme | common.js:47-52 | theme-ocean is present exactly for "ocean" and theme-sunrise exactly for "sunrise"; never both; every other class is untouched |
| Header.SetThemeLastWins | common.js:47-52 | choosing one theme and then another equals choosing only the second |
| Header.SavedTheme | common.js:149-155 | the restored theme is the stored name, or "aurora" when nothing or "" is stored, and "aurora" adds no theme class |
| Header.MakeNavLink | common.js:61-67 | the link keeps its href and text and has class "active" exactly when the flag is set, "" otherwise |
| Header.NavBar | common.js:88-95 | six links in order; a link is active exactly when its key equals the page key; at most one is active; none without a key |
| Header.LoginClick | common.js:159-171 | a login request is sent exactly when neither user nor PIN is all white space (a missing input counting as empty); it carries the trimmed user and the trimmed PIN, both non-empty |
| Monitor.AddChartPoint | monitor.js:100-108 | the value (and its label) becomes last; parallel lengths stay equal; below 30 nothing is dropped; at 30 or more the oldest value and the oldest label are dropped; a window of at most 30 stays within 30 |
| Monitor.AddChartPointIsWindow | monitor.js:100-106 | on a chart within the window, one point leaves exactly the last 30 values of the history extended by it |
| Monitor.FeedShowsLastWindow | monitor.js:100-106 | after any number of live points, a chart that started within the window shows exactly the last 30 values of its whole history |
| Monitor.PushAll | monitor.js:49-52 | each history pair pushes its value and its time label in order, after the existing contents |
| Monitor.LoadHistory | monitor.js:41-57 | a failed fetch or a reply that is not JSON leaves the chart unchanged; a JSON reply without `history` (an HTTP error body included) empties data and labels; otherwise both are emptied and refilled from the history in order |
| Monitor.HistoryThenLive | monitor.js:41-106 | a history of at most 30 readings followed by live points shows the last 30 values of both together |
| Monitor.AxisUnit | monitor.js:93 | "BPM" for heart_rate, "%" for o2, "°C" for anything else |
| Monitor.DatasetLabel | monitor.js:79 | same length as the name; each character is upper-cased, and the first '_' becomes a space |
| Monitor.StartShowsWindow | monitor.js:29-39 | starting the monitor (a fresh chart for the statistic, the history refill, then live points) shows the last 30 values of what was loaded followed by the live points, for every history reply: a failed fetch, a reply without history, or a history of at most 30 readings |
| Monitor.LaterUnderscoresKept | monitor.js:79 | in the dataset label the first underscore of the name is a space and every later underscore is kept |

## Left out

- FastAPI routing, CORS set-up and pydantic validation (main.py:1-25, 62-110). A body missing `user_id` or `pin` is rejected with 422 before any handler runs. A field of the wrong type is rejected or coerced by pydantic (the string "34" becomes 34). The model's request bodies hold the values after that step.
- `load_json`, `save_json` and the data directory (main.py:30-46, 51-54): file I/O. A handler's write is the `saved` tag, and the store starts from whatever the files held.
- `time.time()`: the handlers take `now`, already converted to integer milliseconds.
- Float fields (lat, lon, height_cm, weight_kg, bmi) are carried as opaque literals with no arithmetic. `share_with` is a list of strings, not of arbitrary JSON values.
- Stored records are always complete. The `KeyError` that `existing["user_id"]` would raise on a hand-edited file is not modelled.
- `list_patients`, `list_appointments` and `list_alerts` return their collection as is. Their only properties are the ones in `StoreProperties.ListingsFollowInsertionOrder`.
- Backend.Login: Python `str.lower()` is modelled on ASCII letters only. Non-ASCII case mappings are not modelled.
- Monitor.DatasetLabel: JavaScript `toUpperCase()` is modelled on ASCII letters only. Mappings such as "ß" to "SS", which change the length, are not modelled.
- Strings.ReplaceFirst: `$` patterns in the replacement string are not interpreted. The callers' replacements ("PAT_", " ") contain none.
- common.js DOM work: `getEl`, `bySelector`, `ensureHeader`, the brand and tool elements, the theme-button wiring, the `localStorage` write in `setTheme`, the login `fetch` and its promise chain, `getJSON`/`postJSON` and `alert`. The model keeps only the values these produce or test.
- Header.AudienceForAlerts: session members are strings or missing. The `catch` path, reached when `id` is not a string, is not modelled.
- monitor.js: the doctor login button (lines 6-14), `loadPatients` (16-27), `updateLive` (59-69), the session storage of the start button (29-39) and of `window.onload` (111-124), the timers, `chart.update`/`destroy` and the locale formatting of time labels. Labels are parameters instead. The start sequence itself (a fresh chart, the history refill, then live points) is `Monitor.StartShowsWindow`; `updateLive` is left out, so the live points are whatever readings it would add. `updateLive` also skips a reading whose value is falsy (0 included); the model does not include this.
- Monitor.LoadHistory: history entries are well-formed pairs. A malformed entry would throw part-way through the refill; this is not modelled.
- Concurrency: the model treats each handler call as atomic. FastAPI may run the plain `def` handlers concurrently in its thread pool; interleavings are not modelled.
