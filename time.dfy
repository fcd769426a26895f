/**
 * The time constants and helpers imported by the services from `utils/time`
 * (whose text is not part of this model). Instants are integers in
 * milliseconds since the epoch; `now` is always passed in explicitly.
 */
module Time {

  const FIVE_MINUTES_MS: int := 5 * 60 * 1000
  const FIFTEEN_MINUTES_MS: int := 15 * 60 * 1000
  const ONE_HOUR_MS: int := 60 * 60 * 1000
  const ONE_DAY_MS: int := 24 * ONE_HOUR_MS
  const THIRTY_DAYS_MS: int := 30 * ONE_DAY_MS
  const ONE_YEAR_MS: int := 365 * ONE_DAY_MS

  function FiveMinutesAgo(now: int): int { now - FIVE_MINUTES_MS }
  function OneHourFromNow(now: int): int { now + ONE_HOUR_MS }
  function ThirtyDaysFromNow(now: int): int { now + THIRTY_DAYS_MS }
  function OneYearFromNow(now: int): int { now + ONE_YEAR_MS }
}
