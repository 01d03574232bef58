/**
 * The interface of the lunisolar calendar library the calendar code calls
 * (`lunar-javascript`). Its conversion and solar-term astronomy are not part of
 * this model: every function below takes the library as a `LunarCalendar`
 * value, a record of total functions about which nothing is assumed, so each
 * property proved holds for whatever the library computes.
 */
module Lunar {
  import opened Gregorian
  import opened Wrappers

  /** What `Lunar.fromDate(d)` reports: `getYear()`, `getMonth()` and `getDay()`. */
  datatype LunarDate = LunarDate(year: int, month: int, day: int)

  /** One entry of `getJieQiTable()`: the library's raw term name and its solar date, absent when the library gives none. */
  datatype JieQiEntry = JieQiEntry(name: string, solar: Option<Day>)

  datatype LunarCalendar = LunarCalendar(
    /** `Lunar.fromYmd(y, m, d).getSolar()`, reduced to its day number. */
    toSolar: (int, int, int) -> Day,
    /** `Lunar.fromDate(date)` for the date with this day number. */
    toLunar: Day -> LunarDate,
    /** `Lunar.fromYmd(y, 1, 1).getJieQiTable()`, in the table's key order. */
    jieQiTable: int -> seq<JieQiEntry>)
}
