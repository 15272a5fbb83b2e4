/** The decision logic of `src/lib/eventsApi.js`: the row transform of
    `fetchEvents` and the branching of `addEvent`. Every backend answer is an
    input; the SDK's `{ data, error }` answers are `Result`s. */
module EventsApi {
  import opened Wrappers
  import opened JsString
  import opened ViewModel

  // ---------------------------------------------------------------------------
  // Joined rows as the backend returns them

  /** A `Vibes` row as joined into `Event_Vibes`. */
  datatype VibeRow = VibeRow(id: Id, category: Option<string>)

  /** One `Event_Vibes` element; its `Vibes` join may be null. */
  datatype VibeLink = VibeLink(vibe: Option<VibeRow>)

  /** The joined `Cities` row. */
  datatype CityJoin = CityJoin(cityName: Option<string>)

  /** One `Events` row with its joins; `None` is `null` or a missing key. */
  datatype EventRow = EventRow(
    id: Id,
    eventTitle: string,
    start: Instant,
    stop: Instant,
    location: Option<string>,
    description: Option<string>,
    image: Option<string>,
    createdAt: string,
    updatedAt: string,
    cityId: Option<Id>,
    eventVibes: Option<seq<VibeLink>>,
    cities: Option<CityJoin>)

  // ---------------------------------------------------------------------------
  // The `fetchEvents` transform

  /** A JavaScript string value in a boolean context: not null and not empty. */
  predicate Truthy(s: Option<string>) {
    s.Some? && s.value != ""
  }

  /** `s || fallback` on a possibly-null string. */
  function OrElse(s: Option<string>, fallback: string): (r: string)
    ensures Truthy(s) ==> r == s.value
    ensures !Truthy(s) ==> r == fallback
  {
    if Truthy(s) then s.value else fallback
  }

  /** `ev.Vibes?.category`. */
  function VibeName(link: VibeLink): Option<string> {
    if link.vibe.Some? then link.vibe.value.category else None
  }

  /** `event.Event_Vibes?.map(ev => ev.Vibes?.category) || []`. */
  function LinkedNames(row: EventRow): (names: seq<Option<string>>)
    ensures row.eventVibes.None? ==> names == []
    ensures row.eventVibes.Some? ==> |names| == |row.eventVibes.value|
    ensures row.eventVibes.Some? ==> forall i :: 0 <= i < |names| ==> names[i] == VibeName(row.eventVibes.value[i])
  {
    match row.eventVibes
    case None => []
    case Some(links) => seq(|links|, i requires 0 <= i < |links| => VibeName(links[i]))
  }

  /** `v.toLowerCase()`, which throws on a null name. */
  function LowerName(name: Option<string>): Option<string> {
    if name.Some? then Some(Lower(name.value)) else None
  }

  /** The view model of one row, or `None` when the transform throws (a linked
      vibe without a name makes `v.toLowerCase()` fail). */
  function Normalize(row: EventRow): (r: Option<Event>)
    ensures r.Some? <==> forall i :: 0 <= i < |LinkedNames(row)| ==> LinkedNames(row)[i].Some?
    ensures r.Some? ==> var e := r.value;
      && e.id == row.id && e.title == row.eventTitle
      && e.date == row.start && e.start == Some(row.start) && e.stop == Some(row.stop)
      && e.cityId == row.cityId
      && e.createdAt == Some(row.createdAt) && e.updatedAt == Some(row.updatedAt)
  {
    var names := LinkedNames(row);
    match MapAll(names, LowerName)
    case None => None
    case Some(categories) =>
      var primary := if names != [] then OrElse(names[0], "music") else "music";
      var location := if row.cities.Some? && Truthy(row.cities.value.cityName) then row.cities.value.cityName.value
                      else OrElse(row.location, "Unknown Location");
      Some(Event(
        id := row.id,
        title := row.eventTitle,
        category := Lower(primary),
        categories := Some(categories),
        date := row.start,
        location := location,
        description := OrElse(row.description, "No description available"),
        image := Some(OrElse(row.image, "\U{1F3B5}")),
        createdAt := Some(row.createdAt),
        updatedAt := Some(row.updatedAt),
        cityId := row.cityId,
        start := Some(row.start),
        stop := Some(row.stop)))
  }

  /** `categories` lists the linked vibe names lowercased, in backend order,
      and is empty without `Event_Vibes`. */
  lemma NormalizedCategories(row: EventRow)
    requires Normalize(row).Some?
    ensures var e := Normalize(row).value;
      && e.categories.Some?
      && |e.categories.value| == |LinkedNames(row)|
      && (row.eventVibes.None? ==> e.categories.value == [])
      && forall i :: 0 <= i < |LinkedNames(row)| ==> e.categories.value[i] == Lower(LinkedNames(row)[i].value)
  {
    var names := LinkedNames(row);
    var cs := MapAll(names, LowerName);
    assert forall i :: 0 <= i < |names| ==> LowerName(names[i]) == Some(cs.value[i]);
  }

  /** The primary `category` is the first name lowercased (so it agrees with
      `categories[0]`) when that name is non-empty, and "music" otherwise. */
  lemma NormalizedPrimaryCategory(row: EventRow)
    requires Normalize(row).Some?
    ensures var e := Normalize(row).value; var names := LinkedNames(row);
      && (names != [] && names[0].value != "" ==> e.category == Lower(names[0].value) == e.categories.value[0])
      && (names == [] || names[0].value == "" ==> e.category == "music")
  {
    NormalizedCategories(row);
  }

  /** `location`, `description` and `image` fall back, in order, to the joined
      city name, the row's own text and the fixed defaults. */
  lemma NormalizedDefaults(row: EventRow)
    requires Normalize(row).Some?
    ensures var e := Normalize(row).value;
      && (row.cities.Some? && Truthy(row.cities.value.cityName) ==> e.location == row.cities.value.cityName.value)
      && (!(row.cities.Some? && Truthy(row.cities.value.cityName)) && Truthy(row.location) ==> e.location == row.location.value)
      && (!(row.cities.Some? && Truthy(row.cities.value.cityName)) && !Truthy(row.location) ==> e.location == "Unknown Location")
      && e.description == (if Truthy(row.description) then row.description.value else "No description available")
      && e.image == Some(if Truthy(row.image) then row.image.value else "\U{1F3B5}")
  {
  }

  /** A row without vibes, city join, own location or description gets every default. */
  lemma BareRowDefaults(row: EventRow)
    requires row.eventVibes.None? && row.cities.None? && row.location.None? && row.description.None?
    ensures Normalize(row).Some?
    ensures var e := Normalize(row).value;
      && e.category == "music" && e.categories == Some([])
      && e.location == "Unknown Location" && e.description == "No description available"
  {
  }

  /** `fetchEvents`: a query error is passed through; otherwise every row is
      transformed one-to-one in order, and a row whose transform throws turns
      the whole reply into the caught exception. */
  function FetchEvents(response: Result<seq<EventRow>, Fault>): (r: Reply<seq<Event>>)
    ensures r.ExactlyOne()
    ensures response.Failure? ==> r == Reply(None, Some(response.error))
    ensures response.Success? ==>
      (r.data.Some? <==> forall i :: 0 <= i < |response.value| ==> Normalize(response.value[i]).Some?)
    ensures response.Success? && r.data.None? ==> r.error == Some(TypeError)
    ensures r.data.Some? ==> response.Success? && |r.data.value| == |response.value|
    ensures r.data.Some? ==> forall i :: 0 <= i < |response.value| ==> Normalize(response.value[i]) == Some(r.data.value[i])
  {
    match response
    case Failure(err) => Reply(None, Some(err))
    case Success(rows) =>
      match MapAll(rows, Normalize)
      case None => Reply(None, Some(TypeError))
      case Some(events) => Reply(Some(events), None)
  }

  // ---------------------------------------------------------------------------
  // `addEvent`

  /** The event object the form submits. */
  datatype NewEvent = NewEvent(
    title: string,
    category: string,
    date: string,
    location: string,
    description: string,
    image: Option<string>)

  /** The `Events` row `addEvent` inserts. */
  datatype EventInsert = EventInsert(
    eventTitle: string,
    cityId: Option<Id>,
    start: Instant,
    stop: Instant,
    location: string,
    description: string,
    image: Option<string>)

  /** What the backend adds to an inserted row: its id and timestamps. The
      other columns of the returned row are the inserted values. */
  datatype Inserted = Inserted(id: Id, createdAt: string, updatedAt: string)

  /** The requests `addEvent` issues, in order. */
  datatype Request =
    | FindCity(name: string)
    | CreateCity(name: string)
    | InsertEvent(row: EventInsert)
    | FindVibe(category: string)
    | LinkVibe(eventId: Id, vibeId: Id)

  /** The backend's answer to every request `addEvent` may issue: the city
      lookup's data (its error is never read), the city insert, the event
      insert, the vibe lookup and the junction insert's error. */
  datatype Backend = Backend(
    cityLookup: Option<Id>,
    cityInsert: Result<Id, Fault>,
    eventInsert: Result<Inserted, Fault>,
    vibeLookup: Result<Id, Fault>,
    junctionError: Option<Fault>)

  /** The city id the event is inserted with: an existing city's, else the
      newly created one's, else null. */
  function ResolvedCity(backend: Backend): (id: Option<Id>)
    ensures backend.cityLookup.Some? ==> id == backend.cityLookup
    ensures backend.cityLookup.None? && backend.cityInsert.Success? ==> id == Some(backend.cityInsert.value)
    ensures backend.cityLookup.None? && backend.cityInsert.Failure? ==> id.None?
  {
    if backend.cityLookup.Some? then backend.cityLookup
    else if backend.cityInsert.Success? then Some(backend.cityInsert.value)
    else None
  }

  /** The requests of the city step: the lookup, then a create when no city matched. */
  function CityRequests(location: string, backend: Backend): (qs: seq<Request>)
    ensures 1 <= |qs| <= 2 && qs[0] == FindCity(location)
    ensures |qs| == 2 <==> backend.cityLookup.None?
    ensures |qs| == 2 ==> qs[1] == CreateCity(location)
  {
    if backend.cityLookup.Some? then [FindCity(location)]
    else [FindCity(location), CreateCity(location)]
  }

  /** `addEvent`. `parse` is `new Date(string)`, `None` for an invalid date. */
  method AddEvent(input: NewEvent, parse: string -> Option<Instant>, backend: Backend)
    returns (reply: Reply<Event>, requests: seq<Request>)
    ensures reply.ExactlyOne()
    // the city step never aborts the create
    ensures reply.error.Some? <==> parse(input.date).None? || backend.eventInsert.Failure?
    ensures parse(input.date).None? ==> reply.error == Some(RangeError)
    ensures parse(input.date).Some? && backend.eventInsert.Failure? ==> reply.error == Some(backend.eventInsert.error)
    // the requests issued
    ensures |requests| >= 1 && requests[0] == FindCity(input.location)
    ensures CreateCity(input.location) in requests <==> backend.cityLookup.None?
    ensures forall q :: q in requests && q.InsertEvent? ==>
      var row := q.row;
      && parse(input.date) == Some(row.start)
      && row.stop == row.start + 2 * HourMs
      && row.cityId == ResolvedCity(backend)
      && row == EventInsert(input.title, row.cityId, row.start, row.stop, input.location, input.description, input.image)
    ensures (exists q :: q in requests && q.InsertEvent?) <==> parse(input.date).Some?
    ensures FindVibe(input.category) in requests <==> parse(input.date).Some? && backend.eventInsert.Success?
    ensures forall q :: q in requests && q.LinkVibe? ==>
      backend.eventInsert.Success? && backend.vibeLookup.Success?
      && q == LinkVibe(backend.eventInsert.value.id, backend.vibeLookup.value)
    ensures (exists q :: q in requests && q.LinkVibe?) <==> reply.data.Some? && backend.vibeLookup.Success?
    // the order of the requests on each path
    ensures var city := CityRequests(input.location, backend);
      match parse(input.date)
      case None => requests == city
      case Some(start) =>
        var insert := city + [InsertEvent(EventInsert(input.title, ResolvedCity(backend), start, start + 2 * HourMs,
                                                      input.location, input.description, input.image))];
        if backend.eventInsert.Failure? then requests == insert
        else if backend.vibeLookup.Failure? then requests == insert + [FindVibe(input.category)]
        else requests == insert + [FindVibe(input.category), LinkVibe(backend.eventInsert.value.id, backend.vibeLookup.value)]
    // the event returned after a successful insert
    ensures reply.data.Some? ==> var e := reply.data.value;
      && e.id == backend.eventInsert.value.id
      && e.title == input.title
      && e.category == input.category && e.categories == Some([input.category])
      && Some(e.date) == parse(input.date)
      && e.location == input.location && e.description == input.description && e.image == input.image
      && e.cityId.None? && e.start.None? && e.stop.None?
      && (e.createdAt.None? <==> backend.vibeLookup.Failure?)
      && (e.createdAt.Some? ==> e.createdAt == Some(backend.eventInsert.value.createdAt)
                                && e.updatedAt == Some(backend.eventInsert.value.updatedAt))
      && (e.createdAt.None? ==> e.updatedAt.None?)
  {
    // get or create the city; a failed create leaves the id null
    requests := [FindCity(input.location)];
    var cityId: Option<Id>;
    if backend.cityLookup.Some? {
      cityId := backend.cityLookup;
    } else {
      requests := requests + [CreateCity(input.location)];
      match backend.cityInsert {
        case Failure(_) => cityId := None;
        case Success(id) => cityId := Some(id);
      }
    }

    // `toISOString()` on an invalid date throws into the `catch` block
    var startTime := parse(input.date);
    if startTime.None? {
      reply := Reply(None, Some(RangeError));
      return;
    }
    var start := startTime.value;
    var stop := start + 2 * HourMs;

    var row := EventInsert(input.title, cityId, start, stop, input.location, input.description, input.image);
    requests := requests + [InsertEvent(row)];
    assert requests[|requests| - 1].InsertEvent?;
    if backend.eventInsert.Failure? {
      reply := Reply(None, Some(backend.eventInsert.error));
      return;
    }
    var event := backend.eventInsert.value;

    requests := requests + [FindVibe(input.category)];
    if backend.vibeLookup.Failure? {
      // the event exists without its category link: a degraded success
      reply := Reply(Some(Event(event.id, row.eventTitle, input.category, Some([input.category]), row.start,
                                input.location, row.description, row.image, None, None, None, None, None)), None);
      return;
    }

    // a failure of the junction insert is only logged
    requests := requests + [LinkVibe(event.id, backend.vibeLookup.value)];
    assert requests[|requests| - 1].LinkVibe?;
    reply := Reply(Some(Event(event.id, row.eventTitle, input.category, Some([input.category]), row.start,
                              input.location, row.description, row.image,
                              Some(event.createdAt), Some(event.updatedAt), None, None, None)), None);
  }
}
