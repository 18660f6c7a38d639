/** The entry form: one component that creates an entry at a clicked
  * location or edits an existing entry, depending on whether an entry
  * was supplied. */
module EntryForm {
  import opened Values
  import opened Entries
  import Strings
  import Api

  const EditTitle := "Edit Entry"
  const CreateTitle := "Create New Entry"

  /** The form's initial field values: in edit mode the entry's own fields,
    * a blank API key and the visit date cut to its calendar-date part; in
    * create mode nothing. */
  function DefaultValues(entry: Option<LogEntry>): (r: map<string, Value>)
    ensures entry.None? ==> r == map[]
    ensures entry.Some? ==>
      r.Keys == {Api.ApiKeyField, "title", "comments", "description", "image", "visitDate"} &&
      r[Api.ApiKeyField] == Str("") && r["title"] == Str(entry.value.title) &&
      r["comments"] == entry.value.comments && r["description"] == entry.value.description &&
      r["image"] == entry.value.image &&
      r["visitDate"].Str? && 'T' !in r["visitDate"].s &&
      Strings.StartsWith(entry.value.visitDate, r["visitDate"].s) &&
      (|r["visitDate"].s| < |entry.value.visitDate| ==> entry.value.visitDate[|r["visitDate"].s|] == 'T')
  {
    match entry
    case None => map[]
    case Some(e) =>
      map[
        Api.ApiKeyField := Str(""),
        "title" := Str(e.title),
        "comments" := e.comments,
        "description" := e.description,
        "image" := e.image,
        "visitDate" := Str(Strings.DatePart(e.visitDate))
      ]
  }

  /** The submitted data with the pending location written into it. */
  function WithLocation(data: map<string, Value>, loc: Location): (r: map<string, Value>)
    ensures r.Keys == data.Keys + {"latitude", "longitude"}
    ensures r["latitude"] == Num(loc.latitude) && r["longitude"] == Num(loc.longitude)
    ensures forall k :: k in data && k != "latitude" && k != "longitude" ==> r[k] == data[k]
  {
    data["latitude" := Num(loc.latitude)]["longitude" := Num(loc.longitude)]
  }

  /** Edit-mode defaults never take the key from the entry: it is blank for
    * every entry. The other text fields are the entry's, and an ISO visit
    * date `day + "T" + time` becomes `day`. */
  lemma {:induction false} EditDefaults(e: LogEntry, day: string, time: string)
    requires e.visitDate == day + "T" + time && 'T' !in day
    ensures DefaultValues(Some(e)).Keys == {Api.ApiKeyField, "title", "comments", "description", "image", "visitDate"}
    ensures DefaultValues(Some(e))[Api.ApiKeyField] == Str("")
    ensures DefaultValues(Some(e))["title"] == Str(e.title)
    ensures DefaultValues(Some(e))["comments"] == e.comments
    ensures DefaultValues(Some(e))["description"] == e.description
    ensures DefaultValues(Some(e))["image"] == e.image
    ensures DefaultValues(Some(e))["visitDate"] == Str(day)
    ensures DefaultValues(None) == map[]
  {
    Strings.DatePartOfTimestamp(day, time);
  }

  /** In create mode the request body carries the location's coordinates,
    * whatever the user typed, no key, and every other field of the user's
    * unchanged. */
  lemma CreateBodyCarriesLocation(data: map<string, Value>, loc: Location)
    ensures var req := Api.CreateRequest(WithLocation(data, loc));
      req.body.Some? && Api.ApiKeyField !in req.body.value &&
      req.body.value["latitude"] == Num(loc.latitude) &&
      req.body.value["longitude"] == Num(loc.longitude) &&
      forall k :: k in data && k !in {Api.ApiKeyField, "latitude", "longitude"} ==>
        k in req.body.value && req.body.value[k] == data[k]
  {
  }

  /** In edit mode the body holds exactly the user's fields minus the key:
    * no coordinates are added. */
  lemma EditBodyAddsNothing(id: string, data: map<string, Value>)
    ensures var req := Api.UpdateRequest(id, data);
      req.body.Some? && req.body.value.Keys == data.Keys - {Api.ApiKeyField}
  {
  }

  class LogEntryForm {
    /** The pending add location (create mode). */
    const location: Option<Location>
    /** The entry being edited (edit mode). */
    const entry: Option<LogEntry>
    var loading: bool
    var error: string
    /** How many times `onClose` has been called. */
    var closeCalls: nat

    constructor(location: Option<Location>, entry: Option<LogEntry>)
      requires entry.Some? || location.Some?
      ensures this.location == location && this.entry == entry
      ensures IsEditing() <==> entry.Some?
      ensures !loading && error == "" && closeCalls == 0
      ensures Heading() == ModeTitle() && !SubmitDisabled()
      ensures SubmitLabel() == if entry.Some? then "Update Entry" else "Create Entry"
    {
      this.location := location;
      this.entry := entry;
      loading := false;
      error := "";
      closeCalls := 0;
    }

    /** Edit mode is exactly "an entry was supplied", which is exactly when
      * the form starts with default values. */
    predicate IsEditing()
      ensures IsEditing() <==> DefaultValues(entry) != map[]
    {
      entry.Some?
    }

    function ModeTitle(): string {
      if IsEditing() then EditTitle else CreateTitle
    }

    /** The form's heading: the error when there is one, else the mode title. */
    function Heading(): (r: string)
      reads this
      ensures r != ""
      ensures error != "" ==> r == error
      ensures error == "" ==> r == ModeTitle()
    {
      if error != "" then error else ModeTitle()
    }

    /** The submit button is disabled exactly while it reads "Loading...". */
    predicate SubmitDisabled()
      reads this
      ensures SubmitDisabled() <==> SubmitLabel() == "Loading..."
    {
      loading
    }

    function SubmitLabel(): (r: string)
      reads this
      ensures r == "Loading..." <==> loading
      ensures !loading ==> (r == "Update Entry" <==> IsEditing())
    {
      if loading then "Loading..." else if IsEditing() then "Update Entry" else "Create Entry"
    }

    /** The payload the form hands to the API: the user's data, plus the
      * pending location in create mode. */
    function Payload(data: map<string, Value>): map<string, Value>
      requires entry.Some? || location.Some?
    {
      if IsEditing() then data else WithLocation(data, location.value)
    }

    /** `onSubmit(data)`: set loading, update (edit mode) or stamp the
      * location on `data` and create (create mode); on success call
      * `onClose` once, on failure show the error and re-enable submission. */
    method OnSubmit(data: Api.JsObject, fetch: Api.Request -> Api.Response) returns (req: Api.Request, outcome: Api.Outcome)
      requires entry.Some? || location.Some?
      modifies this`loading, this`error, this`closeCalls, data
      ensures IsEditing() ==> req == Api.UpdateRequest(entry.value.id, old(data.props))
      ensures !IsEditing() ==> req == Api.CreateRequest(WithLocation(old(data.props), location.value))
      ensures data.props == Api.WithoutApiKey(Payload(old(data.props)))
      ensures outcome == if IsEditing() then Api.UpdateOutcome(fetch(req)) else Api.CreateOutcome(fetch(req))
      ensures outcome.Returned? ==>
        loading && SubmitDisabled() && SubmitLabel() == "Loading..." &&
        error == old(error) && closeCalls == old(closeCalls) + 1
      ensures outcome.Thrown? ==>
        !loading && !SubmitDisabled() && error == outcome.fault.message && closeCalls == old(closeCalls)
      ensures outcome.Thrown? && outcome.fault.message != "" ==> Heading() == outcome.fault.message
    {
      loading := true;
      if IsEditing() {
        req, outcome := Api.UpdateLogEntry(entry.value.id, data, fetch);
      } else {
        data.props := data.props["latitude" := Num(location.value.latitude)];
        data.props := data.props["longitude" := Num(location.value.longitude)];
        req, outcome := Api.CreateLogEntry(data, fetch);
      }
      if outcome.Returned? {
        closeCalls := closeCalls + 1;
      } else {
        error := outcome.fault.message;
        loading := false;
      }
    }
  }
}
