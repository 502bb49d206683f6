/**
 * The decoded shapes the scoring code reads (Models/ForecastResponse.swift, Models/AQResponse.swift,
 * Models/DailyForecast.swift, Models/Location.swift) and the formatters it calls but does not define.
 */
module Models {
  import opened Wrappers

  /** An instant, as seconds on a fixed timeline; `addingTimeInterval(t)` is `+ t`. */
  type Date = int

  /** `ForecastResponse.RawDaily`: parallel per-day arrays. */
  datatype RawDaily = RawDaily(time: seq<string>, sunset: seq<string>, cloudcoverMean: seq<real>) {
    /** Every index of `time` is also an index of the other two arrays. */
    predicate Covers() {
      |time| <= |sunset| && |time| <= |cloudcoverMean|
    }
  }

  /** `ForecastResponse.RawHourly`: parallel per-hour arrays (percentages). */
  datatype RawHourly = RawHourly(
    time: seq<string>,
    cloudcoverHigh: seq<real>,
    cloudcoverMid: seq<real>,
    cloudcoverLow: seq<real>,
    cloudcover: seq<real>,
    relativehumidity2m: seq<real>)
  {
    /** Every index of `time` is also an index of every value array. */
    predicate Covers() {
      && |time| <= |cloudcoverHigh|
      && |time| <= |cloudcoverMid|
      && |time| <= |cloudcoverLow|
      && |time| <= |cloudcover|
      && |time| <= |relativehumidity2m|
    }
  }

  /** `ForecastResponse`: the weather endpoint's body. */
  datatype ForecastResponse = ForecastResponse(daily: RawDaily, hourly: RawHourly) {
    predicate Covers() {
      daily.Covers() && hourly.Covers()
    }
  }

  /** `AQResponse.HourlyAQ`: entries may be JSON null; `dust` and `pm2_5` may be missing entirely. */
  datatype HourlyAQ = HourlyAQ(
    aerosolOpticalDepth: seq<Option<real>>,
    dust: Option<seq<Option<real>>>,
    pm25: Option<seq<Option<real>>>,
    time: seq<string>)

  /** `AQResponse`: the air-quality endpoint's body. */
  datatype AQResponse = AQResponse(hourly: HourlyAQ)

  /** `DailyForecast`: one row of the multi-day list. */
  datatype DailyForecast = DailyForecast(id: Date, weekday: string, score: int)

  /** A saved place; equality is structural, like the synthesized `Hashable` conformance. */
  datatype Location = Location(id: string, name: string, latitude: real, longitude: real)

  /**
   * The Foundation formatters the views call: `DateFormatter` with format "yyyy-MM-dd" (`parseDay`),
   * the abbreviated weekday of a date (`weekday`), and `DateFormatter` with format
   * "yyyy-MM-dd'T'HH:mm" (`parseMinute`). Their behaviour is not interpreted here.
   */
  datatype Formatters = Formatters(
    parseDay: string -> Option<Date>,
    weekday: Date -> string,
    parseMinute: string -> Option<Date>)
}
