/**
 * Views/LocationPreview.swift: `loadData` and `indexFor`, line for line the same as in
 * Views/HomeView.swift. The state class is its own; `indexFor` is Alignment.IndexFor and the
 * list builder, the scores and the blend are the functions of module HomeView.
 */
module LocationPreview {
  import opened Wrappers
  import opened Models
  import opened Alignment
  import opened AirQualityService
  import opened HomeView

  /** `@State` of LocationPreview that `loadData` writes, and the previewed location. */
  class LocationPreview {
    const location: Location
    var forecasts: seq<DailyForecast>
    var todayCloudMean: Option<real>
    var todayCloudAtSun: Option<real>
    var todayAod: Option<real>
    var todayHumidity: Option<real>
    var sunsetMoment: Option<Date>
    var goldenMoment: Option<Date>
    var errorMessage: Option<string>

    constructor (location: Location)
      ensures this.location == location
      ensures forecasts == [] && errorMessage.None?
      ensures todayCloudMean.None? && todayCloudAtSun.None? && todayAod.None? && todayHumidity.None?
      ensures sunsetMoment.None? && goldenMoment.None?
    {
      this.location := location;
      forecasts := [];
      todayCloudMean, todayCloudAtSun, todayAod, todayHumidity := None, None, None, None;
      sunsetMoment, goldenMoment := None, None;
      errorMessage := None;
    }

    /** The writes of `loadData`'s success branch, as in HomeView. */
    method StoreLoaded(list: seq<DailyForecast>, cloudMean: Option<real>, cloudAtSun: Option<real>, aod: Option<real>,
                       humidity: Option<real>, sunset: Option<Date>, golden: Option<Date>)
      modifies this
      ensures forecasts == list && todayCloudMean == cloudMean && todayCloudAtSun == cloudAtSun && todayAod == aod
      ensures todayHumidity == humidity && sunsetMoment == sunset && goldenMoment == golden && errorMessage.None?
    {
      todayCloudAtSun, todayHumidity := cloudAtSun, humidity;
      sunsetMoment, goldenMoment := sunset, golden;
      todayCloudMean, todayAod := cloudMean, aod;
      forecasts, errorMessage := list, None;
    }

    /** `loadData` after both fetches for `location`; the same contract as HomeView's. */
    method LoadData(fetched: Result<ForecastResponse, string>, aqFetched: Result<AQResponse, string>,
                    fmt: Formatters, sigmoid: real -> real)
      requires fetched.Success? ==> Loadable(fetched.value)
      requires UnitMonotone(sigmoid)
      modifies this
      ensures fetched.Failure? ==>
        && errorMessage == Some(fetched.error)
        && forecasts == old(forecasts)
        && todayCloudMean == old(todayCloudMean) && todayCloudAtSun == old(todayCloudAtSun)
        && todayAod == old(todayAod) && todayHumidity == old(todayHumidity)
        && sunsetMoment == old(sunsetMoment) && goldenMoment == old(goldenMoment)
      ensures fetched.Success? ==> errorMessage.None?
      ensures fetched.Success? ==> (forecasts ==
        BlendFirst(ForecastDays(fetched.value, fmt, |fetched.value.daily.time|), TodayClarity(fetched.value, aqFetched, sigmoid)))
      ensures fetched.Success? ==> todayCloudMean == Some(fetched.value.daily.cloudcoverMean[0])
      ensures fetched.Success? ==> todayAod == TodayAirInputs(fetched.value, aqFetched).aod
      ensures fetched.Success? ==>
        todayCloudAtSun == TodayReading(fetched.value, fmt, fetched.value.hourly.cloudcover).OrElse(old(todayCloudAtSun))
      ensures fetched.Success? ==>
        todayHumidity == TodayReading(fetched.value, fmt, fetched.value.hourly.relativehumidity2m).OrElse(old(todayHumidity))
      ensures fetched.Success? ==> sunsetMoment == SunsetMoment(fetched.value, fmt).OrElse(old(sunsetMoment))
      ensures fetched.Success? ==> goldenMoment == GoldenMoment(fetched.value, fmt).OrElse(old(goldenMoment))
    {
      match fetched
      case Failure(e) =>
        errorMessage := Some(e);
      case Success(resp) =>
        var list, cloudAtSun, humidity, aod := LoadedForecast(resp, aqFetched, fmt, sigmoid);
        StoreLoaded(list, Some(resp.daily.cloudcoverMean[0]), cloudAtSun.OrElse(todayCloudAtSun), aod,
                    humidity.OrElse(todayHumidity), SunsetMoment(resp, fmt).OrElse(sunsetMoment),
                    GoldenMoment(resp, fmt).OrElse(goldenMoment));
    }
  }
}
