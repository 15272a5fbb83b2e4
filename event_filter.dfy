/** The `filteredEvents` pipeline of `src/App.jsx`: a category pass, a time
    pass and a search pass, each keeping the survivors of the previous one in
    their original order. */
module EventFilter {
  import opened Wrappers
  import opened JsString
  import opened ViewModel
  import opened Taxonomy

  // ---------------------------------------------------------------------------
  // Order-preserving selection (`Array.prototype.filter`)

  /** `a` is obtained from `b` by deleting elements, keeping the order. */
  predicate IsSubsequence<T(==)>(a: seq<T>, b: seq<T>)
    decreases |b|
  {
    a == [] || (b != [] && ((a[0] == b[0] && IsSubsequence(a[1..], b[1..])) || IsSubsequence(a, b[1..])))
  }

  lemma {:induction false} SubsequenceReflexive<T>(a: seq<T>)
    ensures IsSubsequence(a, a)
    decreases |a|
  {
    if a != [] {
      SubsequenceReflexive(a[1..]);
    }
  }

  lemma {:induction false} SubsequenceTransitive<T>(a: seq<T>, b: seq<T>, c: seq<T>)
    requires IsSubsequence(a, b) && IsSubsequence(b, c)
    ensures IsSubsequence(a, c)
    decreases |c|
  {
    if a != [] {
      assert b != [] && c != [];
      if b[0] == c[0] && IsSubsequence(b[1..], c[1..]) {
        if a[0] == b[0] && IsSubsequence(a[1..], b[1..]) {
          SubsequenceTransitive(a[1..], b[1..], c[1..]);
        } else {
          SubsequenceTransitive(a, b[1..], c[1..]);
        }
      } else {
        SubsequenceTransitive(a, b, c[1..]);
      }
    }
  }

  /** `s.filter(p)`: the elements of `s` that satisfy `p`, in their original order. */
  function Keep(s: seq<Event>, p: Event -> bool): (r: seq<Event>)
    ensures |r| <= |s|
    ensures IsSubsequence(r, s)
    ensures forall x :: x in r <==> x in s && p(x)
  {
    if s == [] then []
    else if p(s[0]) then [s[0]] + Keep(s[1..], p)
    else Keep(s[1..], p)
  }

  /** Keep drops no copy of a passing element: each passing value occurs as
      often in the result as in the input, and a failing value not at all. */
  lemma {:induction false} KeepCounts(s: seq<Event>, p: Event -> bool)
    ensures forall x :: multiset(Keep(s, p))[x] == if p(x) then multiset(s)[x] else 0
  {
    if s != [] {
      KeepCounts(s[1..], p);
      assert s == [s[0]] + s[1..];
    }
  }

  /** Keeping with a predicate every element satisfies changes nothing. */
  lemma {:induction false} KeepAll(s: seq<Event>, p: Event -> bool)
    requires forall x :: x in s ==> p(x)
    ensures Keep(s, p) == s
  {
    if s != [] {
      KeepAll(s[1..], p);
    }
  }

  /** Keep depends only on the values of its predicate. */
  lemma {:induction false} KeepExtensional(s: seq<Event>, p: Event -> bool, q: Event -> bool)
    requires forall x :: x in s ==> p(x) == q(x)
    ensures Keep(s, p) == Keep(s, q)
  {
    if s != [] {
      KeepExtensional(s[1..], p, q);
    }
  }

  /** Two successive filters are one filter with the conjunction. */
  lemma {:induction false} KeepKeep(s: seq<Event>, p: Event -> bool, q: Event -> bool, both: Event -> bool)
    requires forall x :: x in s ==> both(x) == (p(x) && q(x))
    ensures Keep(Keep(s, p), q) == Keep(s, both)
  {
    if s != [] {
      KeepKeep(s[1..], p, q, both);
    }
  }

  lemma KeepIdempotent(s: seq<Event>, p: Event -> bool)
    ensures Keep(Keep(s, p), p) == Keep(s, p)
  {
    KeepAll(Keep(s, p), p);
  }

  /** A filter returns its input exactly when every element passes. */
  lemma KeepUnchangedIff(s: seq<Event>, p: Event -> bool)
    ensures Keep(s, p) == s <==> forall x :: x in s ==> p(x)
  {
    if forall x :: x in s ==> p(x) {
      KeepAll(s, p);
    }
  }

  // ---------------------------------------------------------------------------
  // The three tests

  /** The category test: an array of categories, when there is one, decides
      alone (so an empty array matches nothing); only without it is the scalar
      `category` compared. */
  predicate MatchesCategory(e: Event, category: string) {
    match e.categories
    case Some(cs) => category in cs
    case None => e.category == category
  }

  /** `now.getDay()`: 0 is Sunday, 6 is Saturday. */
  type Weekday = w: int | 0 <= w < 7

  /** The two clock readings the time pass uses: local midnight of the current
      date, and the current weekday. */
  datatype Clock = Clock(today: Instant, weekday: Weekday)

  /** `(6 - weekday + 7) % 7 || 7`: the number of days from today to the next
      Saturday, where a Saturday counts the following one. */
  function DaysUntilSaturday(weekday: Weekday): (d: int)
    ensures 1 <= d <= 7
    ensures d == 7 <==> weekday == 6
    ensures (weekday + d) % 7 == 6
  {
    var m := (6 - weekday + 7) % 7;
    if m != 0 then m else 7
  }

  function Tomorrow(c: Clock): Instant {
    c.today + DayMs
  }

  function Saturday(c: Clock): Instant {
    c.today + DaysUntilSaturday(c.weekday) * DayMs
  }

  /** `sunday + 1 day`, where `sunday` is `saturday + 1 day`. */
  function MondayAfterWeekend(c: Clock): Instant {
    Saturday(c) + DayMs + DayMs
  }

  predicate InToday(e: Event, c: Clock) {
    c.today <= e.date < Tomorrow(c)
  }

  predicate InWeekend(e: Event, c: Clock) {
    Saturday(c) <= e.date < MondayAfterWeekend(c)
  }

  /** The search test, given the raw (untrimmed) query. */
  predicate MatchesSearch(e: Event, query: string) {
    var q := Lower(query);
    Includes(Lower(e.title), q) || Includes(Lower(e.location), q) || Includes(Lower(e.description), q)
  }

  // ---------------------------------------------------------------------------
  // The passes and the pipeline

  function CategoryPass(events: seq<Event>, category: string): (r: seq<Event>)
    ensures IsSubsequence(r, events)
    ensures forall e :: e in r <==> e in events && (category == All || MatchesCategory(e, category))
  {
    if category != All then Keep(events, e => MatchesCategory(e, category))
    else SubsequenceReflexive(events); events
  }

  function TimePass(events: seq<Event>, time: string, c: Clock): (r: seq<Event>)
    ensures IsSubsequence(r, events)
    ensures forall e :: e in r <==> e in events && (time == Today ==> InToday(e, c)) && (time == Weekend ==> InWeekend(e, c))
  {
    if time == Today then Keep(events, e => InToday(e, c))
    else if time == Weekend then Keep(events, e => InWeekend(e, c))
    else SubsequenceReflexive(events); events
  }

  function SearchPass(events: seq<Event>, query: string): (r: seq<Event>)
    ensures IsSubsequence(r, events)
    ensures forall e :: e in r <==> e in events && (Trim(query) == [] || MatchesSearch(e, query))
  {
    if Trim(query) != [] then Keep(events, e => MatchesSearch(e, query))
    else SubsequenceReflexive(events); events
  }

  /** Whether one event survives all three passes. */
  predicate Selected(e: Event, category: string, time: string, query: string, c: Clock) {
    (category == All || MatchesCategory(e, category))
    && (time == Today ==> InToday(e, c))
    && (time == Weekend ==> InWeekend(e, c))
    && (Trim(query) == [] || MatchesSearch(e, query))
  }

  function SelectedTest(category: string, time: string, query: string, c: Clock): Event -> bool {
    e => Selected(e, category, time, query, c)
  }

  /** `filteredEvents`: the events that pass every active test, in their
      original order. */
  function FilteredEvents(events: seq<Event>, category: string, time: string, query: string, c: Clock): (r: seq<Event>)
    ensures IsSubsequence(r, events)
    ensures forall e :: e in r <==> e in events && Selected(e, category, time, query, c)
  {
    var afterCategory := CategoryPass(events, category);
    var afterTime := TimePass(afterCategory, time, c);
    var r := SearchPass(afterTime, query);
    SubsequenceTransitive(afterTime, afterCategory, events);
    SubsequenceTransitive(r, afterTime, events);
    r
  }

  // ---------------------------------------------------------------------------
  // Properties of the pipeline

  /** The three passes together are one filter with the combined test. */
  lemma FilteredIsKeep(events: seq<Event>, category: string, time: string, query: string, c: Clock)
    ensures FilteredEvents(events, category, time, query, c) == Keep(events, SelectedTest(category, time, query, c))
  {
    var pc: Event -> bool := e => category == All || MatchesCategory(e, category);
    var pt: Event -> bool := e => (time == Today ==> InToday(e, c)) && (time == Weekend ==> InWeekend(e, c));
    var ps: Event -> bool := e => Trim(query) == [] || MatchesSearch(e, query);
    var pct: Event -> bool := e => pc(e) && pt(e);
    var a := CategoryPass(events, category);
    if category == All {
      KeepAll(events, pc);
    } else {
      KeepExtensional(events, e => MatchesCategory(e, category), pc);
    }
    assert a == Keep(events, pc);
    var b := TimePass(a, time, c);
    if time == Today {
      KeepExtensional(a, e => InToday(e, c), pt);
    } else if time == Weekend {
      KeepExtensional(a, e => InWeekend(e, c), pt);
    } else {
      KeepAll(a, pt);
    }
    assert b == Keep(a, pt);
    KeepKeep(events, pc, pt, pct);
    if Trim(query) != [] {
      KeepExtensional(b, e => MatchesSearch(e, query), ps);
    } else {
      KeepAll(b, ps);
    }
    assert SearchPass(b, query) == Keep(b, ps);
    KeepKeep(events, pct, ps, SelectedTest(category, time, query, c));
  }

  /** With every filter off (a blank query counts as off) the result is the whole list. */
  lemma FilterOffIsIdentity(events: seq<Event>, query: string, c: Clock)
    requires IsBlank(query)
    ensures FilteredEvents(events, All, All, query, c) == events
  {
  }

  /** The result is the input list itself exactly when every event passes. */
  lemma FilterUnchangedIff(events: seq<Event>, category: string, time: string, query: string, c: Clock)
    ensures FilteredEvents(events, category, time, query, c) == events
            <==> forall e :: e in events ==> Selected(e, category, time, query, c)
  {
    FilteredIsKeep(events, category, time, query, c);
    KeepUnchangedIff(events, SelectedTest(category, time, query, c));
  }

  /** Filtering the output again with the same criteria and clock changes nothing. */
  lemma FilterIdempotent(events: seq<Event>, category: string, time: string, query: string, c: Clock)
    ensures var once := FilteredEvents(events, category, time, query, c);
            FilteredEvents(once, category, time, query, c) == once
  {
    var test := SelectedTest(category, time, query, c);
    FilteredIsKeep(events, category, time, query, c);
    FilteredIsKeep(Keep(events, test), category, time, query, c);
    KeepIdempotent(events, test);
  }

  /** Every copy of a selected event survives the pipeline: a selected value
      occurs as often in the output as in the input, a rejected one never. */
  lemma FilteredCounts(events: seq<Event>, category: string, time: string, query: string, c: Clock)
    ensures forall x :: multiset(FilteredEvents(events, category, time, query, c))[x]
                        == if Selected(x, category, time, query, c) then multiset(events)[x] else 0
  {
    FilteredIsKeep(events, category, time, query, c);
    KeepCounts(events, SelectedTest(category, time, query, c));
  }

  /** The category test with an array present ignores the scalar field
      entirely; without one it is the scalar comparison. */
  lemma CategoryPrecedence(e: Event, category: string)
    ensures e.categories.Some? ==> (MatchesCategory(e, category) <==> category in e.categories.value)
    ensures e.categories == Some([]) ==> !MatchesCategory(e, category)
    ensures e.categories.None? ==> (MatchesCategory(e, category) <==> e.category == category)
  {
  }

  /** The "today" pass keeps exactly the events in `[today, today + 1 day)`. */
  lemma TodayWindow(events: seq<Event>, c: Clock)
    ensures forall e :: e in FilteredEvents(events, All, Today, "", c)
                        <==> e in events && c.today <= e.date < c.today + DayMs
  {
  }

  /** The "weekend" pass keeps exactly the events in `[saturday, saturday + 2 days)`,
      where `saturday` is 1 to 7 days after today. */
  lemma WeekendWindow(events: seq<Event>, c: Clock)
    ensures c.today + DayMs <= Saturday(c) <= c.today + 7 * DayMs
    ensures c.weekday == 6 ==> Saturday(c) == c.today + 7 * DayMs
    ensures forall e :: e in FilteredEvents(events, All, Weekend, "", c)
                        <==> e in events && Saturday(c) <= e.date < Saturday(c) + 2 * DayMs
  {
  }

  /** Since the Saturday offset is at least one day, no event is both today
      and in the weekend window, even on a Saturday. */
  lemma WindowsDisjoint(events: seq<Event>, category: string, query: string, c: Clock)
    ensures forall e :: !(InToday(e, c) && InWeekend(e, c))
    ensures forall e :: e in FilteredEvents(events, category, Today, query, c)
                        ==> e !in FilteredEvents(events, category, Weekend, query, c)
  {
  }

  /** The search pass compares the lowercased raw query, so surrounding blanks
      that `trim` would drop still have to occur in a field. */
  lemma SearchUsesUntrimmedQuery(e: Event, query: string)
    requires !IsBlank(query)
    ensures MatchesSearch(e, query)
            <==> exists i :: OccursAt(Lower(e.title), Lower(query), i)
                             || OccursAt(Lower(e.location), Lower(query), i)
                             || OccursAt(Lower(e.description), Lower(query), i)
  {
    IncludesAt(Lower(e.title), Lower(query));
    IncludesAt(Lower(e.location), Lower(query));
    IncludesAt(Lower(e.description), Lower(query));
  }

  /** With events dated today, tomorrow and on the coming Saturday, the
      weekend filter keeps only the Saturday one, unless today is a Friday. */
  lemma WeekendScenario(onToday: Event, onTomorrow: Event, onSaturday: Event, c: Clock)
    requires c.today <= onToday.date < c.today + DayMs
    requires c.today + DayMs <= onTomorrow.date < c.today + 2 * DayMs
    requires Saturday(c) <= onSaturday.date < Saturday(c) + DayMs
    ensures c.weekday != 5 ==> FilteredEvents([onToday, onTomorrow, onSaturday], All, Weekend, "", c) == [onSaturday]
    ensures c.weekday == 5 ==> FilteredEvents([onToday, onTomorrow, onSaturday], All, Weekend, "", c) == [onTomorrow, onSaturday]
  {
    var es := [onToday, onTomorrow, onSaturday];
    var inWeekend: Event -> bool := e => InWeekend(e, c);
    assert Trim("") == [];
    assert FilteredEvents(es, All, Weekend, "", c) == Keep(es, inWeekend);
    assert es[1..] == [onTomorrow, onSaturday] && es[1..][1..] == [onSaturday] && es[1..][1..][1..] == [];
    assert !InWeekend(onToday, c) && InWeekend(onSaturday, c);
    assert Keep(es, inWeekend) == Keep(es[1..], inWeekend);
    assert Keep(es[1..][1..], inWeekend) == [onSaturday];
    assert InWeekend(onTomorrow, c) <==> c.weekday == 5;
  }

  /** Search ignores case: "NEON" finds "Neon Nights Music Festival". */
  lemma SearchIgnoresCase(e: Event)
    requires e.title == "Neon Nights Music Festival"
    ensures MatchesSearch(e, "NEON")
  {
    assert Lower("NEON") == "neon";
    assert Lower(e.title)[..4] == "neon";
  }
}
