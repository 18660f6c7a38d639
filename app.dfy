/** The root map application: the entry list, the viewport, the search
  * term, and the single popup that is open at any time. */
module MapApp {
  import opened Values
  import opened Entries
  import Strings
  import Api
  import EntryForm

  /** The map's viewport. `transitionDuration` is absent until a search
    * result animates the map. */
  datatype Viewport = Viewport(
    width: string,
    height: string,
    latitude: Coord,
    longitude: Coord,
    zoom: real,
    transitionDuration: Option<int>)

  /** Centred over India at zoom 4, filling the window. */
  const InitialViewport := Viewport("100vw", "100vh", "22.5937", "78.9629", 4.0, None)
  const SearchZoom := 5.0
  const SearchTransitionMs := 1000

  /** `activePopup`: null, or one of the four kinds of popup with its data. */
  datatype Popup =
    | NoPopup
    | View(entry: LogEntry)
    | Add(latitude: Coord, longitude: Coord)
    | Edit(entry: LogEntry)
    | Delete(entry: LogEntry)

  /** What `handlePopupClose` is called with: nothing (the default `false`),
    * a boolean, or the click event of the delete dialog's Cancel button. */
  datatype CloseArg = Omitted | Flag(b: bool) | ClickEvent

  predicate Truthy(arg: CloseArg) {
    (arg.Flag? && arg.b) || arg.ClickEvent?
  }

  /** What the open popup shows. */
  datatype Content =
    | Nothing
    | EntryCard(entry: LogEntry)
    | Form(location: Option<Location>, formEntry: Option<LogEntry>)
    | DeleteDialog

  // ---------------------------------------------------------------------
  // Search

  /** The search predicate: the lower-cased title contains the lower-cased term. */
  predicate TitleMatches(e: LogEntry, term: string) {
    Strings.Contains(Strings.Lower(e.title), Strings.Lower(term))
  }

  /** `logEntries.filter(...)` with the title predicate. */
  function FilterByTitle(entries: seq<LogEntry>, term: string): (r: seq<LogEntry>)
    ensures |r| <= |entries|
    ensures forall e :: e in r ==> e in entries && TitleMatches(e, term)
  {
    if entries == [] then []
    else (if TitleMatches(entries[0], term) then [entries[0]] else []) + FilterByTitle(entries[1..], term)
  }

  /** `filteredEntries`: the whole list for an empty term, else the filter. */
  function FilteredEntries(entries: seq<LogEntry>, term: string): (r: seq<LogEntry>)
    ensures term == "" ==> r == entries
    ensures forall e :: e in r ==> e in entries && TitleMatches(e, term)
  {
    if term == "" then entries else FilterByTitle(entries, term)
  }

  /** `a` is `b` with some elements left out, the rest in their order. */
  predicate IsSubsequence<T(==)>(a: seq<T>, b: seq<T>)
    decreases |b|
  {
    a == [] || (b != [] && ((a[0] == b[0] && IsSubsequence(a[1..], b[1..])) || IsSubsequence(a, b[1..])))
  }

  /** The filter keeps exactly the matching entries, each as often as it
    * occurs, and drops every other one. */
  lemma {:induction false} FilterMultiplicity(entries: seq<LogEntry>, term: string, e: LogEntry)
    ensures multiset(FilterByTitle(entries, term))[e] ==
      if TitleMatches(e, term) then multiset(entries)[e] else 0
  {
    if entries != [] {
      FilterMultiplicity(entries[1..], term, e);
      assert entries == [entries[0]] + entries[1..];
    }
  }

  /** Membership in the result, both ways. */
  lemma FilterMembership(entries: seq<LogEntry>, term: string, e: LogEntry)
    ensures e in FilterByTitle(entries, term) <==> e in entries && TitleMatches(e, term)
  {
    FilterMultiplicity(entries, term, e);
  }

  /** The filter keeps the entries' order. */
  lemma {:induction false} FilterIsSubsequence(entries: seq<LogEntry>, term: string)
    ensures IsSubsequence(FilterByTitle(entries, term), entries)
  {
    if entries != [] {
      FilterIsSubsequence(entries[1..], term);
      var rest := FilterByTitle(entries[1..], term);
      if TitleMatches(entries[0], term) {
        var r := FilterByTitle(entries, term);
        assert r[0] == entries[0] && r[1..] == rest;
      } else {
        assert FilterByTitle(entries, term) == rest;
        SubsequenceOfTail(rest, entries);
      }
    }
  }

  lemma SubsequenceOfTail<T>(a: seq<T>, b: seq<T>)
    requires b != [] && IsSubsequence(a, b[1..])
    ensures IsSubsequence(a, b)
  {
  }

  /** Every title contains the empty string, so the filter on its own would
    * already keep the whole list for an empty term. */
  lemma {:induction false} FilterEmptyTermKeepsAll(entries: seq<LogEntry>)
    ensures FilterByTitle(entries, "") == entries
  {
    if entries != [] {
      FilterEmptyTermKeepsAll(entries[1..]);
      assert Strings.Lower("") == "";
      assert TitleMatches(entries[0], "");
      assert entries == [entries[0]] + entries[1..];
    }
  }

  /** `filteredEntries` in full: the whole list, in order, for an empty
    * term; otherwise the matching entries, in order, each as often as it
    * occurs in the list. */
  lemma FilteredEntriesCharacterised(entries: seq<LogEntry>, term: string)
    ensures term == "" ==> FilteredEntries(entries, term) == entries
    ensures IsSubsequence(FilteredEntries(entries, term), entries)
    ensures forall e :: multiset(FilteredEntries(entries, term))[e] ==
                       (if TitleMatches(e, term) then multiset(entries)[e] else 0)
  {
    FilterEmptyTermKeepsAll(entries);
    FilterIsSubsequence(entries, term);
    forall e ensures multiset(FilteredEntries(entries, term))[e] ==
      if TitleMatches(e, term) then multiset(entries)[e] else 0
    {
      FilterMultiplicity(entries, term, e);
    }
  }

  /** Search is case-insensitive in ASCII: a term and its lower-cased form
    * select the same entries. */
  lemma {:induction false} FilterCaseInsensitive(entries: seq<LogEntry>, term: string)
    ensures FilterByTitle(entries, term) == FilterByTitle(entries, Strings.Lower(term))
  {
    Strings.LowerIdempotent(term);
    if entries != [] {
      FilterCaseInsensitive(entries[1..], term);
    }
  }

  // ---------------------------------------------------------------------
  // The open popup

  /** Where `renderPopup` anchors the popup: the stored point for an add
    * popup, the entry's coordinates for the others, nothing without a popup. */
  function PopupAnchor(p: Popup): (r: Option<Location>)
    ensures r.None? <==> p.NoPopup?
    ensures p.Add? ==> r == Some(Location(p.latitude, p.longitude))
    ensures p.View? || p.Edit? || p.Delete? ==> r == Some(Location(p.entry.latitude, p.entry.longitude))
  {
    match p
    case NoPopup => None
    case Add(lat, lng) => Some(Location(lat, lng))
    case View(e) => Some(Location(e.latitude, e.longitude))
    case Edit(e) => Some(Location(e.latitude, e.longitude))
    case Delete(e) => Some(Location(e.latitude, e.longitude))
  }

  /** What `renderPopup` puts inside the popup. */
  function PopupContent(p: Popup): (c: Content)
    ensures c.Nothing? <==> p.NoPopup?
    ensures c.Form? <==> p.Add? || p.Edit?
    ensures c.Form? ==> (c.formEntry.Some? <==> p.Edit?) && (c.formEntry.Some? || c.location.Some?)
    ensures c.Form? && c.formEntry.None? ==> c.location == PopupAnchor(p)
    ensures p.Edit? ==> c.formEntry == Some(p.entry)
    ensures c.EntryCard? <==> p.View?
    ensures c.EntryCard? ==> c.entry == p.entry
    ensures c.DeleteDialog? <==> p.Delete?
  {
    match p
    case NoPopup => Nothing
    case View(e) => EntryCard(e)
    case Add(lat, lng) => Form(Some(Location(lat, lng)), None)
    case Edit(e) => Form(None, Some(e))
    case Delete(_) => DeleteDialog
  }

  /** The `entry._id` that confirming a delete addresses, or the TypeError
    * raised when the open popup carries no entry. */
  datatype DeleteTarget = Target(id: string) | NoTarget(message: string)

  function DeleteTargetOf(p: Popup): (t: DeleteTarget)
    ensures p.View? || p.Edit? || p.Delete? ==> t == Target(p.entry.id)
    ensures p.NoPopup? || p.Add? ==> t.NoTarget?
  {
    match p
    case NoPopup => NoTarget(Api.NullishReadMessage(Null, "entry"))
    case Add(_, _) => NoTarget(Api.NullishReadMessage(Undefined, "_id"))
    case View(e) => Target(e.id)
    case Edit(e) => Target(e.id)
    case Delete(e) => Target(e.id)
  }

  /** From a double-click at `[lng, lat]` to the create request: the add
    * popup's form stamps the clicked latitude and longitude (in that swapped
    * order) on the body. */
  lemma DoubleClickToCreateBody(lngLat: seq<Coord>, data: map<string, Value>)
    requires |lngLat| >= 2
    ensures var p := Add(lngLat[1], lngLat[0]);
      var c := PopupContent(p);
      c.Form? && c.formEntry.None? && c.location == Some(Location(lngLat[1], lngLat[0])) &&
      var body := Api.CreateRequest(EntryForm.WithLocation(data, c.location.value)).body.value;
      body["latitude"] == Num(lngLat[1]) && body["longitude"] == Num(lngLat[0])
  {
    EntryForm.CreateBodyCarriesLocation(data, Location(lngLat[1], lngLat[0]));
  }

  // ---------------------------------------------------------------------
  // The component's state and event handlers

  class App {
    var logEntries: seq<LogEntry>
    var viewport: Viewport
    var searchTerm: string
    var activePopup: Popup
    /** How many times `getEntries()` has been started. */
    var reloads: nat

    /** First render: empty list, default viewport, no search, no popup;
      * the mount effect starts one load. */
    constructor()
      ensures logEntries == [] && viewport == InitialViewport && searchTerm == ""
      ensures activePopup == NoPopup && reloads == 1
    {
      logEntries := [];
      viewport := InitialViewport;
      searchTerm := "";
      activePopup := NoPopup;
      reloads := 1;
    }

    /** A started `getEntries()` resolves with the backend's list. */
    method EntriesLoaded(entries: seq<LogEntry>)
      modifies this`logEntries
      ensures logEntries == entries
    {
      logEntries := entries;
    }

    /** The search input's `onChange`. */
    method SetSearchTerm(term: string)
      modifies this`searchTerm
      ensures searchTerm == term
    {
      searchTerm := term;
    }

    /** The map's `onViewportChange`. */
    method SetViewport(v: Viewport)
      modifies this`viewport
      ensures viewport == v
    {
      viewport := v;
    }

    function Filtered(): seq<LogEntry>
      reads this
    {
      FilteredEntries(logEntries, searchTerm)
    }

    function Anchor(): Option<Location>
      reads this
    {
      PopupAnchor(activePopup)
    }

    /** `handleSearchResultClick(entry)`: fly to the entry, open its view
      * popup, clear the search. */
    method HandleSearchResultClick(e: LogEntry)
      modifies this`viewport, this`activePopup, this`searchTerm
      ensures viewport.latitude == e.latitude && viewport.longitude == e.longitude
      ensures viewport.zoom == SearchZoom && viewport.transitionDuration == Some(SearchTransitionMs)
      ensures viewport.width == old(viewport.width) && viewport.height == old(viewport.height)
      ensures activePopup == View(e) && searchTerm == ""
      ensures Filtered() == logEntries
      ensures Anchor() == Some(Location(e.latitude, e.longitude))
    {
      viewport := viewport.(latitude := e.latitude, longitude := e.longitude,
                            zoom := SearchZoom, transitionDuration := Some(SearchTransitionMs));
      activePopup := View(e);
      searchTerm := "";
    }

    /** `showAddMarkerPopup(event)`: `event.lngLat` is `[longitude, latitude]`. */
    method ShowAddMarkerPopup(lngLat: seq<Coord>)
      requires |lngLat| >= 2
      modifies this`activePopup
      ensures activePopup == Add(lngLat[1], lngLat[0])
      ensures Anchor() == Some(Location(lngLat[1], lngLat[0]))
    {
      var longitude, latitude := lngLat[0], lngLat[1];
      activePopup := Add(latitude, longitude);
    }

    /** A marker's `onClick`. */
    method MarkerClick(e: LogEntry)
      modifies this`activePopup
      ensures activePopup == View(e)
      ensures Anchor() == Some(Location(e.latitude, e.longitude))
    {
      activePopup := View(e);
    }

    /** The view popup's Edit button. */
    method EditClick()
      requires activePopup.View?
      modifies this`activePopup
      ensures activePopup == Edit(old(activePopup).entry)
      ensures Anchor() == old(Anchor())
    {
      activePopup := Edit(activePopup.entry);
    }

    /** The view popup's Delete button. */
    method DeleteClick()
      requires activePopup.View?
      modifies this`activePopup
      ensures activePopup == Delete(old(activePopup).entry)
      ensures Anchor() == old(Anchor())
    {
      activePopup := Delete(activePopup.entry);
    }

    /** `handlePopupClose(refresh = false)`. */
    method HandlePopupClose(refresh: CloseArg)
      modifies this`activePopup, this`reloads
      ensures activePopup == NoPopup && Anchor().None?
      ensures reloads == old(reloads) + (if Truthy(refresh) then 1 else 0)
      ensures refresh == ClickEvent || refresh == Flag(true) ==> reloads == old(reloads) + 1
      ensures refresh == Omitted || refresh == Flag(false) ==> reloads == old(reloads)
    {
      activePopup := NoPopup;
      if Truthy(refresh) {
        reloads := reloads + 1;
      }
    }

    /** `confirmDelete(apiKey)`: delete the open popup's entry; on success
      * close and reload, on failure alert the message and close. */
    method ConfirmDelete(apiKey: string, fetch: Api.Request -> Api.Response)
      returns (sent: Option<Api.Request>, alerted: Option<string>)
      modifies this`activePopup, this`reloads
      ensures activePopup == NoPopup
      ensures DeleteTargetOf(old(activePopup)).Target? ==>
        sent == Some(Api.DeleteRequest(DeleteTargetOf(old(activePopup)).id, apiKey))
      ensures DeleteTargetOf(old(activePopup)).NoTarget? ==>
        sent.None? && alerted == Some(DeleteTargetOf(old(activePopup)).message)
      ensures sent.Some? && Api.DeleteOutcome(fetch(sent.value)).Returned? ==>
        alerted.None? && reloads == old(reloads) + 1
      ensures sent.Some? && Api.DeleteOutcome(fetch(sent.value)).Thrown? ==>
        alerted == Some(Api.DeleteOutcome(fetch(sent.value)).fault.message)
      ensures alerted.Some? <==> reloads == old(reloads)
    {
      var target := DeleteTargetOf(activePopup);
      match target
      case NoTarget(message) =>
        sent := None;
        alerted := Some(message);
        activePopup := NoPopup;
      case Target(id) =>
        var req := Api.DeleteRequest(id, apiKey);
        sent := Some(req);
        var outcome := Api.DeleteOutcome(fetch(req));
        if outcome.Returned? {
          activePopup := NoPopup;
          reloads := reloads + 1;
          alerted := None;
        } else {
          alerted := Some(outcome.fault.message);
          activePopup := NoPopup;
        }
    }
  }

}
