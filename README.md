# Travel-log client: a Dafny model

This project models the logic of a small map-based travel-log web client.
The map shows a pin per logged entry. Double-clicking the map opens a form
that creates an entry at that point. Clicking a pin opens the entry, from
where it can be edited or deleted. A search box filters the entries by
title. A thin API client sends create, update and delete calls with a
shared-secret `X-API-KEY` header and turns the backend's answers into
returned values or thrown errors.

The model has six modules:

- `Strings` (`strings.dfy`): ASCII `toLowerCase`, `includes` (proved equal to the
  direct substring definition), and the `split('T')[0]` step that cuts a
  timestamp to its date.
- `Values` (`values.dfy`): JavaScript values as the client sees them, and the
  `String(v)` conversion that `new Error(m)` and the `Headers` object apply.
- `Entries` (`entries.dfy`): the log entry record. Coordinates are the numbers'
  decimal text, because the client only copies them.
- `Api` (`api.dfy`): request shaping and response decisions for list, create,
  update and delete. `fetch` is a function parameter `Request -> Response`.
  A response is an abstract record: `ok`, the content type, the raw text,
  and what `response.json()` yields.
  The caller's object, which `delete entry.apiKey` mutates, is the class
  `JsObject`.
- `EntryForm` (`entry_form.dfy`): the form's default values, and the class
  `LogEntryForm` with its `loading`, `error` and `onClose` count, and its
  submit handler.
- `MapApp` (`app.dfy`): the `Popup` variant (none, view, add, edit, delete),
  the title filter, the popup's anchor and content, and the class `App`
  whose methods are the event handlers. Reloads of the entry list are a
  counter, `reloads`.

What the code does that a reader might not expect:

- Cancelling a delete reloads the list. The Cancel button passes its click
  event to `handlePopupClose`, and the event is truthy.
- Create wraps an HTML body as `{message: <text>}` whatever the status, so
  an ok HTML answer returns that object.
- Listing never looks at the status: it returns whatever the body decodes to.
- Update and delete never attach `error.response`; only create does.

## Model

| member | source | states |
|---|---|---|
| Strings.Lower | client/src/App.js:34 | Lower-casing keeps the length and lowers every character; only ASCII upper-case letters change |
| Strings.Contains | client/src/App.js:34 | `includes`: the empty term is in every string, and a contained term is never longer than the string |
| Strings.ContainsIffOccurs | client/src/App.js:34 | `includes` holds exactly when the term occurs at some index of the string |
| Strings.DatePart | client/src/LogEntryForm.js:17 | The result is the longest prefix with no 'T': it stops at the first 'T' or at the end |
| Strings.DatePartOfTimestamp | client/src/LogEntryForm.js:17 | On a timestamp `day + "T" + time` with no 'T' in `day`, the date part is exactly `day` |
| Api.MessageProperty | client/src/API.js:34 | `json.message` is the object's own `message` property, and undefined for anything else |
| Api.ErrorMessage | client/src/API.js:34 | `new Error(m).message` is the string itself for a string and "" for undefined |
| Api.WithoutApiKey | client/src/API.js:12-13 | After `delete entry.apiKey` the key is gone and every other field is unchanged |
| Api.CallerObjectRoundTrip | client/src/API.js:12-21 | The caller's original object is rebuilt from the request's body plus its key header, so nothing else is lost |
| Api.ResourcePaths | client/src/API.js:7-59 | Create and list use `/api/logs`; update and delete use the same `/api/logs/{id}`, which never equals the create path |
| Api.ListRequest | client/src/API.js:7 | Listing is a GET of `/api/logs` with no key header and no body |
| Api.CreateRequest | client/src/API.js:14-21 | POST to `/api/logs` with exactly the JSON content type and the caller's key as headers; the body has every field but `apiKey`, unchanged |
| Api.UpdateRequest | client/src/API.js:42-49 | PUT to `/api/logs/{id}` with the same two headers; the body has every field but `apiKey`, unchanged |
| Api.DeleteRequest | client/src/API.js:59-64 | DELETE of `/api/logs/{id}` whose only header is `X-API-KEY`, with no body |
| Api.ReadJson | client/src/API.js:50 | `response.json()` returns the decoded body, or throws the parser's message when the body is not JSON |
| Api.CreateBody | client/src/API.js:22-30 | A missing content type throws; an HTML content type yields `{message: <raw text>}` without parsing; any other content type goes through `response.json()` |
| Api.CreateOutcome | client/src/API.js:22-36 | An ok answer returns the decoded body; a non-ok answer always throws; an HTTP error carries the decoded body as `response` and its `message` as message |
| Api.UpdateOutcome | client/src/API.js:50-55 | An ok answer returns the decoded body; a non-ok answer whose body decodes to a non-null value throws `HttpError(json.message)` with no `response`; a body that is not JSON throws the parser's message, whatever the status |
| Api.DeleteOutcome | client/src/API.js:65-70 | Delete settles exactly as update on every response: ok returns the decoded body, a non-ok JSON body throws its `message` with no `response` |
| Api.ListOutcome | client/src/API.js:6-9 | Listing returns the decoded body whatever the status, and throws the parser's message when the body is not JSON |
| Api.CreateHtmlError | client/src/API.js:23-36 | A non-ok create with an HTML content type throws the raw text as message, with `response` set to `{message: text}` |
| Api.CreateJsonError | client/src/API.js:23-36 | A non-ok create with a JSON body `{message: m}` throws message `m` with the whole body as `response` |
| Api.CreateBadRequestExample | client/src/API.js:29-36 | A 400 answer `{"message":"Invalid title"}` makes create throw "Invalid title" |
| Api.CreateServerErrorExample | client/src/API.js:23-36 | A 500 HTML page "Internal Server Error" makes create throw "Internal Server Error" |
| Api.CreateSettles | client/src/API.js:31-36 | Create returns exactly the decoded value when ok; an HTTP error only comes from a non-ok answer and always carries `response` |
| Api.CreateUpdateDifferOnlyInResponse | client/src/API.js:31-55 | For the same non-ok JSON answer create and update throw the same message; only create attaches `response` |
| Api.CreateLogEntry | client/src/API.js:11-37 | Removes the key from the caller's object, sends the create request, and settles as `CreateOutcome` |
| Api.UpdateLogEntry | client/src/API.js:39-56 | Removes the key from the caller's object, sends PUT to the entry's path, and settles as `UpdateOutcome` |
| EntryForm.WithLocation | client/src/LogEntryForm.js:29-30 | Stamping the location sets `latitude` and `longitude` to the location's coordinates, adds no other key, and keeps every other field's value |
| EntryForm.DefaultValues | client/src/LogEntryForm.js:11-18 | Create mode has no defaults; edit mode has exactly the six fields: a blank key, the entry's title, comments, description and image, and a visit date equal to the stored timestamp's part before its first 'T' |
| EntryForm.EditDefaults | client/src/LogEntryForm.js:10-19 | Edit defaults are a blank key, the entry's own title, comments, description and image, and the date part of the visit date; create has none |
| EntryForm.CreateBodyCarriesLocation | client/src/LogEntryForm.js:28-31 | A create body carries the pending location's coordinates and no key, and every other user field unchanged |
| EntryForm.EditBodyAddsNothing | client/src/LogEntryForm.js:24-26 | An update body has exactly the user's fields minus the key, with no coordinates added |
| EntryForm.LogEntryForm.IsEditing | client/src/LogEntryForm.js:8 | The form is in edit mode exactly when it starts with default values, that is when an entry was supplied |
| EntryForm.LogEntryForm.Heading | client/src/LogEntryForm.js:43 | The heading is never empty: the error when there is one, else the mode title |
| EntryForm.LogEntryForm.SubmitDisabled | client/src/LogEntryForm.js:56 | The submit button is disabled exactly while its label reads "Loading..." |
| EntryForm.LogEntryForm.SubmitLabel | client/src/LogEntryForm.js:57 | The label is "Loading..." exactly while loading; otherwise it is "Update Entry" exactly in edit mode |
| EntryForm.LogEntryForm.constructor | client/src/LogEntryForm.js:5-8 | A new form is in edit mode exactly when an entry was supplied; it is not loading, has no error, and shows its mode title and the mode's enabled submit button |
| EntryForm.LogEntryForm.OnSubmit | client/src/LogEntryForm.js:21-39 | Edit mode updates `entry._id` with the data as given; create mode stamps the location first. Success calls `onClose` once and stays loading. Failure shows the error's message, clears loading and does not close |
| MapApp.FilterByTitle | client/src/App.js:33-35 | The filter is no longer than the list and keeps only listed entries whose lower-cased title contains the lower-cased term |
| MapApp.FilterMultiplicity | client/src/App.js:33-35 | Each matching entry is kept as often as it occurs in the list, and each other entry is dropped |
| MapApp.FilterMembership | client/src/App.js:33-35 | An entry is in the filtered list exactly when it is in the list and its title matches |
| MapApp.FilterIsSubsequence | client/src/App.js:33-35 | The filtered list keeps the list's order |
| MapApp.FilterEmptyTermKeepsAll | client/src/App.js:29-35 | The title filter alone already keeps the whole list for an empty term |
| MapApp.FilteredEntries | client/src/App.js:29-36 | An empty term gives the list itself; every entry returned is listed and matches the term |
| MapApp.FilteredEntriesCharacterised | client/src/App.js:29-36 | `filteredEntries` is the whole list for an empty term, and otherwise the ordered matches with their multiplicities |
| MapApp.FilterCaseInsensitive | client/src/App.js:34 | A term and its lower-cased form select the same entries |
| MapApp.PopupAnchor | client/src/App.js:74-84 | No popup has no anchor; add anchors at its stored point; view, edit and delete anchor at the entry's coordinates |
| MapApp.PopupContent | client/src/App.js:86-114 | View shows the entry's card, delete the confirmation dialog, no popup nothing; add and edit show the form, in edit mode exactly for edit (with its entry) and otherwise at the popup's anchor |
| MapApp.DeleteTargetOf | client/src/App.js:57 | Confirming a delete targets the open popup's `entry._id`, and fails with a TypeError when the popup has no entry |
| MapApp.DoubleClickToCreateBody | client/src/App.js:50-53 | A double-click at `[lng, lat]` leads to a create body with latitude `lngLat[1]` and longitude `lngLat[0]` |
| MapApp.App.constructor | client/src/App.js:9-27 | Starts with no entries, the default viewport, no search and no popup, and the mount starts one load |
| MapApp.App.EntriesLoaded | client/src/App.js:20-23 | A finished load replaces the entry list with the backend's list |
| MapApp.App.SetSearchTerm | client/src/App.js:139 | Typing sets the search term |
| MapApp.App.SetViewport | client/src/App.js:162 | Panning or zooming replaces the viewport |
| MapApp.App.HandleSearchResultClick | client/src/App.js:38-48 | Moves the viewport to the entry at zoom 5, keeps its other fields, opens view(entry) and clears the search |
| MapApp.App.ShowAddMarkerPopup | client/src/App.js:50-53 | Opens add with latitude `lngLat[1]` and longitude `lngLat[0]` |
| MapApp.App.MarkerClick | client/src/App.js:167 | Opens view(entry) anchored at the entry |
| MapApp.App.EditClick | client/src/App.js:97 | From view(entry) opens edit(entry) with the same entry and anchor |
| MapApp.App.DeleteClick | client/src/App.js:98 | From view(entry) opens delete(entry) with the same entry and anchor |
| MapApp.App.HandlePopupClose | client/src/App.js:67-72 | Always closes the popup; requests a reload exactly when the argument is truthy, so the Cancel click and the forms' `true` reload and no argument does not |
| MapApp.App.ConfirmDelete | client/src/App.js:55-65 | Sends delete for the popup's entry id and always closes. It reloads once on success, and on failure alerts the error's message without reloading |

## Left out

- The `fetch` transport, promises and the order in which async work settles are left out. Each call is one request followed by its response, supplied by the `fetch` parameter.
- The base-URL switch on the page's hostname is left out. Paths are relative to the base URL.
- `JSON.stringify` and `JSON.parse` are left out. A request body is the object before serialisation, and a response carries what `response.json()` yields.
- Rendering is left out: JSX, the map library's markers and popups, styling, and the marker size `6 * zoom`, which is floating-point presentation.
- `new Date(...)`, `toISOString` and `toLocaleDateString` depend on time zone and locale. An entry's `visitDate` stands for the ISO string the form splits.
- `toLowerCase` is modelled on ASCII letters only. Unicode case mapping is left out.
- `console.error` is left out. `alert` appears as the message `ConfirmDelete` returns.
- The delete confirmation component only forwards the typed key and the Cancel click. Both appear in `MapApp.App.ConfirmDelete` and `MapApp.App.HandlePopupClose`.
- The form library's required-field checks are left out. Submitted data is taken as given.
- Numbers are their canonical decimal text. No arithmetic is done on coordinates or zoom, apart from the zoom constants.
- The messages of runtime TypeErrors use V8's wording. A property read on null is one example.
- A load that never finishes, and a list body that is not an array of entries, are left out. `EntriesLoaded` receives a decoded list.
- MapApp.App.EditClick: requires a view popup, because the Edit button exists only inside it.
- MapApp.App.DeleteClick: requires a view popup, because the Delete button exists only inside it.
