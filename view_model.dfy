/** The flat event record the user interface works on, and the `{ data, error }`
    reply convention of the backend gateway. */
module ViewModel {
  import opened Wrappers

  /** An absolute instant in milliseconds since the epoch. */
  type Instant = int

  /** A backend-assigned identifier (a UUID string). */
  type Id = string

  const HourMs: int := 60 * 60 * 1000
  const DayMs: int := 24 * HourMs

  /** What ends up in the `error` slot: a backend error object, or an
      exception caught by a gateway's `catch` block. */
  datatype Fault =
    | Backend(detail: string)
    | TypeError   // a property read or method call on `null`/`undefined`
    | RangeError  // `toISOString()` on an invalid `Date`

  /** The `{ data, error }` pair every gateway function returns; `None` is `null`. */
  datatype Reply<T> = Reply(data: Option<T>, error: Option<Fault>) {
    /** Exactly one of the two slots is non-null. */
    predicate ExactlyOne() {
      data.Some? != error.Some?
    }
  }

  /** The event view model. `categories` is `None` when the field is absent or
      not an array; the bookkeeping fields are `None` when a producer leaves
      them out. */
  datatype Event = Event(
    id: Id,
    title: string,
    category: string,
    categories: Option<seq<string>>,
    date: Instant,
    location: string,
    description: string,
    image: Option<string>,
    createdAt: Option<string>,
    updatedAt: Option<string>,
    cityId: Option<Id>,
    start: Option<Instant>,
    stop: Option<Instant>)
}
