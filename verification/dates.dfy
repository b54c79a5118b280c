/** Calendar dates as milliseconds since 1970-01-01T00:00:00Z. A date-only
    string `YYYY-MM-DD` denotes midnight UTC of that day, as `new Date(...)`
    reads it. */
module Dates {

  const MsPerDay: int := 24 * 60 * 60 * 1000

  /** Days from 1970-01-01 to the proleptic Gregorian date `y-m-d`
      (the days-from-civil algorithm). */
  function CivilDays(y: int, m: int, d: int): int
    requires 1 <= m <= 12 && 1 <= d <= 31
  {
    var y' := if m <= 2 then y - 1 else y;
    var era := y' / 400;
    var yoe := y' - era * 400;
    var mp := if m > 2 then m - 3 else m + 9;
    var doy := (153 * mp + 2) / 5 + d - 1;
    var doe := yoe * 365 + yoe / 4 - yoe / 100 + doy;
    era * 146097 + doe - 719468
  }

  /** Midnight UTC of `y-m-d`. */
  function DateMs(y: int, m: int, d: int): int
    requires 1 <= m <= 12 && 1 <= d <= 31
  {
    CivilDays(y, m, d) * MsPerDay
  }
}
