/** The controller state of `src/App.jsx`: the event list, the three filter
    settings and the load error, with the handlers that update them. */
module AppStore {
  import opened Wrappers
  import opened ViewModel
  import opened Taxonomy
  import opened EventFilter
  import EventsApi

  const LoadFailedMessage: string := "Failed to load events. Please check your connection."

  class EventStore {
    var events: seq<Event>
    var selectedCategory: string
    var selectedTime: string
    var searchQuery: string
    var loadError: Option<string>

    /** The filters are all off when every filter is at its initial value. */
    predicate FiltersCleared()
      reads this
    {
      selectedCategory == All && selectedTime == All && searchQuery == ""
    }

    /** The memoised `filteredEvents` for the current state, given the clock
        read at the last recompute. */
    function Visible(c: Clock): (r: seq<Event>)
      reads this
      ensures IsSubsequence(r, events)
      ensures FiltersCleared() ==> r == events
    {
      FilteredEvents(events, selectedCategory, selectedTime, searchQuery, c)
    }

    constructor ()
      ensures events == [] && FiltersCleared() && loadError.None?
    {
      events := [];
      selectedCategory := All;
      selectedTime := All;
      searchQuery := "";
      loadError := None;
    }

    /** `loadEvents`: an error reply records the message and keeps the list;
        otherwise the list becomes the reply's data, or empty without data. */
    method LoadEvents(reply: Reply<seq<Event>>)
      modifies this
      ensures reply.error.Some? ==> loadError == Some(LoadFailedMessage) && events == old(events)
      ensures reply.error.None? ==> loadError.None? && events == reply.data.GetOr([])
      ensures selectedCategory == old(selectedCategory) && selectedTime == old(selectedTime)
      ensures searchQuery == old(searchQuery)
    {
      loadError := None;
      if reply.error.Some? {
        loadError := Some(LoadFailedMessage);
      } else {
        events := reply.data.GetOr([]);
      }
    }

    /** `handleAddEvent` after `addEvent` answered `reply`: on success the new
        event goes to the front and every filter is cleared, so the whole
        list, new event first, is visible; an error or a missing event
        changes nothing. */
    method HandleAddEvent(reply: Reply<Event>)
      modifies this
      ensures reply.error.None? && reply.data.Some? ==>
        && events == [reply.data.value] + old(events)
        && FiltersCleared()
        && forall c :: Visible(c) == events
      ensures reply.error.Some? || reply.data.None? ==>
        && events == old(events)
        && selectedCategory == old(selectedCategory) && selectedTime == old(selectedTime)
        && searchQuery == old(searchQuery)
      ensures loadError == old(loadError)
    {
      if reply.error.Some? {
        return;
      }
      if reply.data.None? {
        return;
      }
      events := [reply.data.value] + events;
      ClearFilters();
    }

    /** The Clear Filters button. */
    method ClearFilters()
      modifies this
      ensures FiltersCleared()
      ensures events == old(events) && loadError == old(loadError)
      ensures forall c :: Visible(c) == events
    {
      selectedCategory := All;
      selectedTime := All;
      searchQuery := "";
    }

    /** The setters the filter controls call. */
    method SetCategory(category: string)
      modifies this`selectedCategory
      ensures selectedCategory == category
    {
      selectedCategory := category;
    }

    method SetTime(time: string)
      modifies this`selectedTime
      ensures selectedTime == time
    {
      selectedTime := time;
    }

    method SetSearchQuery(query: string)
      modifies this`searchQuery
      ensures searchQuery == query
    {
      searchQuery := query;
    }
  }

  /** Fetched events always carry a `categories` array, so the category pass
      never falls back to the scalar `category`: an event fetched without any
      vibe is hidden by every category filter, although its scalar category
      says "music". */
  lemma FetchedEventsMatchByCategoriesOnly(row: EventsApi.EventRow, category: string)
    requires EventsApi.Normalize(row).Some?
    ensures MatchesCategory(EventsApi.Normalize(row).value, category)
            <==> category in EventsApi.Normalize(row).value.categories.value
    ensures row.eventVibes.None? ==> !MatchesCategory(EventsApi.Normalize(row).value, category)
    ensures row.eventVibes.None? ==> EventsApi.Normalize(row).value.category == "music"
  {
    EventsApi.NormalizedCategories(row);
    EventsApi.NormalizedPrimaryCategory(row);
  }
}
