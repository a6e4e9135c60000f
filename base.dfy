/** Shared vocabulary of the model: optional values, results, and time as
    integer seconds. */
module Base {

  datatype Option<+T> = None | Some(value: T)

  datatype Result<+T, +E> = Success(value: T) | Failure(error: E)

  /** An instant, in whole seconds. Calendar arithmetic that depends on
      month or year lengths is passed in as a function where it is needed. */
  type Instant = int

  const SecondsPerHour: int := 3600
  const SecondsPerDay: int := 86400

  /** Carbon's `addDays(n)` on an instant. */
  function AddDays(t: Instant, days: int): Instant
  {
    t + days * SecondsPerDay
  }

  /** Carbon's `addHours(n)` on an instant. */
  function AddHours(t: Instant, hours: int): Instant
  {
    t + hours * SecondsPerHour
  }

  /** Carbon's `isFuture()` relative to the clock reading `now`. */
  predicate IsFuture(t: Instant, now: Instant)
  {
    t > now
  }

  /** Carbon's `isPast()` relative to the clock reading `now`. */
  predicate IsPast(t: Instant, now: Instant)
  {
    t < now
  }

  /** A nullable timestamp that is set and strictly after `now`
      (`$x && $x->isFuture()`). */
  predicate SetAndFuture(t: Option<Instant>, now: Instant)
  {
    t.Some? && IsFuture(t.value, now)
  }
}
