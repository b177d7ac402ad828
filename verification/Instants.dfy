/** Instants and durations in microseconds since the epoch, UTC. */
module Instants {
  const SECOND := 1_000_000
  const MINUTE := 60 * SECOND
  const HOUR := 60 * MINUTE
  const DAY := 24 * HOUR

  /** The calendar date of an instant, as a day number. */
  function DateOf(instant: int): int {
    instant / DAY
  }

  /** A date lasts from its midnight to the next, and midnights are a day of microseconds apart. */
  lemma DateExactly(instant: int, date: int)
    ensures DateOf(instant) == date <==> date * 86_400_000_000 <= instant < (date + 1) * 86_400_000_000
  {
  }
}
