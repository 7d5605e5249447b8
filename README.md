# BD robots: filtering, session and export, modelled in Dafny

This project models the robot-event viewer of the `bd` repository. It has two halves.

- The browser component `BDRobotsApp` (`app/bd-robots-app/src/App.jsx`) covers:
  - login and logout;
  - fetching the robot events;
  - the filter object and its handlers;
  - the `filteredRobotEvents` view;
  - the export URLs.
- The FastAPI service (`bdapi/main.py`) covers:
  - the MongoDB filter documents built from query parameters by `get_robot_event`, `get_export_robot_event` and `get_export_robot_event_by_username`;
  - their format and date checks;
  - the 404 for an unknown user;
  - the projection of found documents;
  - the CSV rows.

Modules and files:

- `wrappers.dfy`, module `Wrappers`: `Option` and `Result`.
- `seqs.dfy`, module `Seqs`: the subsequence relation, shared by the browser filter and `find`.
- `strings.dfy`, module `Strings`. It holds:
  - ASCII lower-casing;
  - substring containment, proved equal to an existential definition;
  - decimal rendering of a natural number, with its parser;
  - splitting and joining on a separator character, proved inverse.
- `client_filter.dfy`, module `ClientFilter`. It holds:
  - the JavaScript filter object, as an association list in property order;
  - the property read and the `{...prev, [key]: value}` update;
  - the five per-field tests and `filteredRobotEvents`.
- `export_url.dfy`, module `ExportUrl`: the URL that `handleExportJSON` and `handleExportCSV` open.
- `session.dfy`, module `Session`: the class `BDRobotsApp`. Its fields are the component's `useState` hooks. Its methods are the handlers.
- `mongo.dfy`, module `Mongo`. It holds:
  - the documents;
  - the filter documents, with equality, `$regex`, `$in`, `$gte` and `$lt`;
  - the in-memory meaning of `find`;
  - `find_one` on the users.
- `api.dfy`, module `Api`: the three endpoints' filter construction, validation, projection and CSV writing.
- `samples.dfy`, modules `ClientSamples` and `ServerSamples`: the rows of `bdapi/populate_robot_event.js`, used as concrete inputs.

Three things are parameters of the model rather than part of it:

- The network. Each request is replaced by its outcome.
- Date parsing. JavaScript `new Date(s)` and Python `datetime.fromisoformat` are parameters `string -> Option<int>`. `None` stands for an Invalid Date or a `ValueError`, and an `int` is seconds since the epoch.
- Query-string encoding. `URLSearchParams`'s percent-encoder is a parameter `string -> string`.

Four behaviours of the code shape the model:

- The status value `all` is compared literally, like any other status (`App.jsx:101`).
- The login response is the user document, `null` or a list. No token is kept, and no bearer header is sent (`App.jsx:27-52`).
- A failed fetch keeps the events already held (`App.jsx:74-79`).
- The CSV is written by the server (`main.py:338-349`), not by the browser.

## Model

| member | source | states |
|---|---|---|
| Strings.Lower | app/bd-robots-app/src/App.jsx:96 | lower-casing keeps the length, maps each character by `LowerChar` and leaves no upper-case ASCII letter |
| Strings.LowerIdempotent | app/bd-robots-app/src/App.jsx:96 | lower-casing an already lower-cased string changes nothing |
| Strings.ContainsIff | app/bd-robots-app/src/App.jsx:96 | `includes` holds exactly when the needle occurs at some index of the haystack |
| Strings.SplitJoin | app/bd-robots-app/src/App.jsx:128 | splitting a joined list on the separator gives the list back when no part contains the separator |
| Strings.ParseNatToString | app/bd-robots-app/src/App.jsx:70 | the decimal rendering of a status code reads back as the same number |
| ClientFilter.Lookup | app/bd-robots-app/src/App.jsx:96-102 | reading `filters[key]` is `undefined` exactly when the object lacks the key, and otherwise returns a value stored under it |
| ClientFilter.LookupEntry | app/bd-robots-app/src/App.jsx:85-91 | in an object with distinct keys, each entry's key reads back that entry's value |
| ClientFilter.SetFilter | app/bd-robots-app/src/App.jsx:109-114 | after `{...prev, [key]: value}` the key reads `value` and every other key reads as before |
| ClientFilter.SetFilterKeys | app/bd-robots-app/src/App.jsx:109-114 | an existing key keeps its place in property order; a new key is appended at the end (true in JavaScript for every key that is not an array index; see Left out) |
| ClientFilter.SetFilterWellFormed | app/bd-robots-app/src/App.jsx:109-114 | any update keeps the keys distinct and, in the model's key order, the five declared keys first (see Left out for array-index keys) |
| ClientFilter.EmptyFiltersCleared | app/bd-robots-app/src/App.jsx:85-91 | the initial filter object has `robot` present and every field empty |
| ClientFilter.EmptyFiltersWellFormed | app/bd-robots-app/src/App.jsx:85-91 | the initial filter object declares `robot, dateFrom, dateTo, status, description` once each, in that order |
| ClientFilter.FilteredRobotEvents | app/bd-robots-app/src/App.jsx:94-106 | an event is in the filtered list exactly when it is in the fetched list and passes all five tests; the result is never longer |
| ClientFilter.FilteredIsSubsequence | app/bd-robots-app/src/App.jsx:94-106 | the filtered list is a subsequence of the fetched list, in the original order |
| ClientFilter.FilteredMultiplicity | app/bd-robots-app/src/App.jsx:94-106 | each passing event occurs in the filtered list exactly as often as in the fetched list, and a failing one never |
| ClientFilter.FilteredIdempotent | app/bd-robots-app/src/App.jsx:94-106 | filtering the filtered list again with the same filters changes nothing |
| ClientFilter.ClearedFiltersKeepAll | app/bd-robots-app/src/App.jsx:116-124 | with every field empty, the filtered list is the fetched list |
| ClientFilter.FilteredReadsDeclaredKeys | app/bd-robots-app/src/App.jsx:95-105 | two filter objects that agree on the five declared keys filter every list alike |
| ClientFilter.NameKeyIgnored | app/bd-robots-app/src/App.jsx:109-114 | setting a `name` property, which the filter controls send, leaves the filtered list unchanged |
| ClientFilter.ControlKeysAreNotArrayIndices | app/bd-robots-app/src/components/FilterControls.jsx:16-48 | none of the keys the filter controls send (`name`, `dateFrom`, `dateTo`, `status`) is an array index |
| ClientFilter.StatusAllIsLiteral | app/bd-robots-app/src/App.jsx:101 | the status value `all` is compared literally: a list with no event whose status is the text `all` filters to nothing |
| ClientFilter.NameTestIsCaseInsensitiveSubstring | app/bd-robots-app/src/App.jsx:96 | the robot test holds exactly when the lower-cased query occurs at some index of the lower-cased robot name |
| ClientFilter.DescriptionTestIsSubstring | app/bd-robots-app/src/App.jsx:102 | a non-empty description query passes exactly when it occurs in the description, case-sensitively |
| ClientFilter.DateBoundsInclusive | app/bd-robots-app/src/App.jsx:98-100 | both date bounds are inclusive, and an unparseable date on either side fails a given bound |
| ExportUrl.ExportUrlParts | app/bd-robots-app/src/App.jsx:127-137 | the export URL is the export endpoint, `?`, then one `key=value` pair per filter property in property order, then `format=json` or `format=csv`; each pair splits back into the encoded key and value |
| ExportUrl.DeclaredKeysFirst | app/bd-robots-app/src/App.jsx:128 | for a reachable filter object, the first five query pairs are the five declared keys in order |
| ExportUrl.EmptyFiltersQuery | app/bd-robots-app/src/App.jsx:117-128 | after clearing, the query string is `robot=&dateFrom=&dateTo=&status=&description=` when the encoder leaves the key names and the empty string unchanged |
| Session.FetchErrorMessageStatus | app/bd-robots-app/src/App.jsx:69-71 | the fetch error message is the fixed prefix followed by the decimal status, which reads back as the status |
| Session.BDRobotsApp.constructor | app/bd-robots-app/src/App.jsx:10-91 | logged out, nothing loading, no errors, no events, all filters empty |
| Session.BDRobotsApp.HandleLogin | app/bd-robots-app/src/App.jsx:27-52 | a successful login stores the body as the user and starts a fetch; a non-ok response sets `Invalid credentials`; a thrown error sets its message; `authLoading` ends false; events and filters are untouched |
| Session.BDRobotsApp.HandleLogout | app/bd-robots-app/src/App.jsx:55-58 | the user and the events are cleared, and nothing else changes |
| Session.BDRobotsApp.BeginFetch | app/bd-robots-app/src/App.jsx:61-64 | loading starts and the error is cleared |
| Session.BDRobotsApp.CompleteFetch | app/bd-robots-app/src/App.jsx:66-79 | a success replaces the events verbatim; a non-ok status records `HTTP error! status: <code>` and keeps the old events; a thrown error records its message; loading ends |
| Session.BDRobotsApp.FetchRobotEvents | app/bd-robots-app/src/App.jsx:61-80 | a whole fetch: on success the events are the body and there is no error; on failure the old events stay and the error is recorded |
| Session.BDRobotsApp.HandleFilterChange | app/bd-robots-app/src/App.jsx:109-114 | only the property `key` changes, and the filter object stays well formed |
| Session.BDRobotsApp.HandleClearFilters | app/bd-robots-app/src/App.jsx:116-124 | the filters return to the initial object, every field empty |
| Session.BDRobotsApp.FilteredView | app/bd-robots-app/src/App.jsx:94-106 | the view holds exactly the held events that pass the current filters |
| Mongo.Find | bdapi/main.py:184 | a document is in the answer of `find` exactly when it is in the collection and satisfies every condition of the filter; the answer is never longer than the collection |
| Mongo.FindIsSubsequence | bdapi/main.py:184 | the answer of `find` is a subsequence of the collection, so it keeps collection order |
| Mongo.FindMultiplicity | bdapi/main.py:184 | each matching document occurs in the answer exactly as often as in the collection, and a non-matching one never |
| Mongo.FindAll | bdapi/main.py:246 | the empty filter document selects the whole collection |
| Mongo.MatchesUnion | bdapi/main.py:218-243 | a filter document built from conditions on disjoint fields matches exactly when each part matches |
| Mongo.FindUser | bdapi/main.py:211-214 | `find_one` by username returns a stored user with that name, and nothing exactly when no user has it |
| Api.BuildTextFilters | bdapi/main.py:295-301 | the robot, status and description updates build the documented text conditions |
| Api.TextFiltersMeaning | bdapi/main.py:171-177 | the text conditions hold exactly when robot and status are equal and the description contains the query ignoring case, each only when given; they never touch `createdAt` |
| Api.BuildListFilter | bdapi/main.py:171-181 | `get_robot_event`'s updates give the list filter: a given `dateTo` replaces the `createdAt` entry that `dateFrom` set |
| Api.ListFilterMeaning | bdapi/main.py:171-184 | a document matches the list filter exactly when the text conditions hold and no date parameter is given, because the string bounds never compare with a date |
| Api.ListDatesMatchNothing | bdapi/main.py:178-184 | any date parameter makes the list endpoint answer nothing |
| Api.ListDateToReplacesDateFrom | bdapi/main.py:178-181 | with both dates given, only the `$lt` bound survives |
| Api.ExportFilter | bdapi/main.py:302-322 | the export filter fails exactly when a given date does not parse; an unparseable `dateFrom` is reported first, and otherwise the error is about `dateTo` |
| Api.BuildExportFilter | bdapi/main.py:295-322 | the successive updates give the export filter, including the in-place `$lt` write into the entry `dateFrom` created |
| Api.ExportFilterMeaning | bdapi/main.py:295-325 | a document matches exactly when the text conditions hold, `createdAt >= dateFrom` when given, `createdAt < dateTo` when both dates are given, and `createdAt >= dateTo` when `dateTo` comes alone |
| Api.OwnedByMeaning | bdapi/main.py:262 | `{"robot": {"$in": robots}}` matches exactly the documents of the user's robots |
| Api.NoParamsExportsAll | bdapi/main.py:218-246 | with no parameters the export filter is empty and selects every document, whoever's robots they are |
| Api.CsvRoundTrip | bdapi/main.py:338-349 | reading the CSV rows back after the header gives the exported events again, in order |
| Api.GetRobotEvent | bdapi/main.py:163-194 | the list endpoint answers the found documents of the list filter, each projected with its `_id`, in order |
| Api.CollectExported | bdapi/main.py:324-333 | the export loop projects every found document to robot, status, description and createdAt, in order |
| Api.WriteCsv | bdapi/main.py:338-349 | the writer emits the header row, then one row per exported event, in order |
| Api.WriteCsvFromCursor | bdapi/main.py:259-270 | the by-username writer emits the header row, then one row per document of its own cursor |
| Api.GetExportRobotEvent | bdapi/main.py:282-356 | a bad format gives 400; a bad date gives its 400; otherwise JSON gives the filtered events and CSV gives their table as `robot_events.csv` |
| Api.GetExportRobotEventByUsername | bdapi/main.py:197-279 | the format is checked first, then the user (plain 404 `User not found`), then the dates; JSON gives the filtered events of every robot; CSV ignores the filters and writes every event of the user's robots as `robot_events_<username>.csv` |
| ClientSamples.ClientStatusActive | bdapi/populate_robot_event.js:4-5 | of the first two seeded events, the status filter `active` keeps exactly the active one |
| ClientSamples.ClientDateFromInclusive | bdapi/populate_robot_event.js:4-5 | in a browser on UTC, with `dateFrom` at the second seeded event's time, that event passes and the first, 55 seconds earlier, does not |
| ServerSamples.ExportLoneDateToOnSeed | bdapi/populate_robot_event.js:4-21 | on the seeded collection, exporting with only `dateTo=2025-07-11` returns the ten events from that day on |
| ServerSamples.ExportPatsyActive | bdapi/populate_robot_event.js:8-11 | on the patsy and Zoot rows, `robot=patsy&status=active` exports the two active patsy events, in order |

## Left out

- HTTP routing, CORS, the lifespan hook, the Motor client and async cursors. A cursor is the sequence that `find` returns.
- `post_bduser`, `get_robot_event_by_username`, `get_robot_event_by_robot` and the root and version endpoints. Only the login response's shape is modelled, in `Session.UserData`.
- Date parsing. `new Date` and `datetime.fromisoformat` are parameters, and time zones and sub-second precision are not modelled.
- `URLSearchParams` percent-encoding is a parameter. Only its promise that `&` and `=` never appear in its output is assumed.
- `csv.writer` quoting and line endings. Rows are modelled as sequences of cells before rendering. The timestamp cell is the instant, not its text.
- Strings.Lower: lower-cases ASCII letters only. JavaScript `toLowerCase` and MongoDB's `i` option also fold other scripts.
- Api.TextFiltersMeaning: treats the description as a literal substring. Regular-expression metacharacters in the query are not interpreted.
- Mongo.Matches: bounds of another BSON type than the field never match, and only `$gte` and `$lt` are modelled.
- Documents missing a field, or holding `None` in one, are not modelled. Every document has all five fields.
- The `HTTPException` JSON body `{"detail": ...}` is not modelled. The model keeps the status and the detail text.
- The race between overlapping fetches, `window.open`, `location.replace`, `console.error` and rendering are left out.
- The fetch started by `handleLogin` is not awaited. The model runs its first half inside `HandleLogin`, and `CompleteFetch` runs later.
- ClientFilter.SetFilter: places a new key at the end of the property order. JavaScript lists array-index keys such as `"0"` before all others. The values read back are right; only the order differs. `ControlKeysAreNotArrayIndices` shows that no key the filter controls send is affected.
- ClientFilter.SetFilterKeys: its "appended at the end" holds in JavaScript only for keys that are not array indices.
- ClientFilter.SetFilterWellFormed: "the declared keys stay first" holds in JavaScript only when the key is not an array index.
- Session.BDRobotsApp.HandleFilterChange: inherits the key order of `SetFilter`. A call with an array-index key would put that key first in JavaScript, but last in the model.
- ExportUrl.DeclaredKeysFirst: `URLSearchParams` follows the property order. After an array-index key was set, that key's pair would come first in JavaScript.
- `FilterControls.jsx`, `RecordsTable.jsx` and `RobotEventsTable.jsx` are not part of this model. Two facts about the filter controls are kept as lemmas: they send the key `name`, which the filter never reads, and they offer the status `all`, which the filter compares literally.
