/**
 * Views/ContentView.swift: the older screen. It builds the same kind of multi-day list as
 * Views/HomeView.swift, but day 0's hourly score is the plain average of the three cloud
 * layers, there is no air-quality blend, and the "Today's Conditions" grid needs four values
 * of which two are only ever set to nil.
 */
module ContentView {
  import opened Wrappers
  import opened Numerics
  import opened Models
  import opened Alignment
  import Home = HomeView

  /** Day 0's hourly score here: the mean of the three layers, clamped to [0, 100], truncated. */
  function AveragedCloudScore(hi: real, mi: real, lo: real): (score: int)
    ensures 0 <= score <= 100
    ensures (hi + mi + lo) / 3.0 <= 0.0 ==> score == 0
    ensures 100.0 <= (hi + mi + lo) / 3.0 ==> score == 100
  {
    Trunc(RealMax(0.0, RealMin((hi + mi + lo) / 3.0, 100.0)))
  }

  /** More cloud in any layer never lowers this score. */
  lemma AveragedCloudScoreMonotone(hi1: real, mi1: real, lo1: real, hi2: real, mi2: real, lo2: real)
    requires hi1 <= hi2 && mi1 <= mi2 && lo1 <= lo2
    ensures AveragedCloudScore(hi1, mi1, lo1) <= AveragedCloudScore(hi2, mi2, lo2)
  {
    TruncMonotone(RealMax(0.0, RealMin((hi1 + mi1 + lo1) / 3.0, 100.0)),
                  RealMax(0.0, RealMin((hi2 + mi2 + lo2) / 3.0, 100.0)));
  }

  /**
   * The two modes of this screen point in opposite directions: a fully overcast day 0 scores 100
   * in hourly mode, while a fully overcast day scores 0 in daily mode.
   */
  lemma ModesDisagreeOnOvercast()
    ensures AveragedCloudScore(100.0, 100.0, 100.0) == 100
    ensures Home.DailyCloudScore(100.0) == 0
    ensures AveragedCloudScore(0.0, 0.0, 0.0) == 0
    ensures Home.DailyCloudScore(0.0) == 100
  {
  }

  /** The score of daily index `i` on this screen. */
  function AveragedDayScore(resp: ForecastResponse, i: nat): (score: int)
    requires resp.Covers() && i < |resp.daily.time|
    ensures 0 <= score
    ensures 0.0 <= resp.daily.cloudcoverMean[i] ==> score <= 100
    ensures i > 0 ==> score == Home.DayCloudScore(resp, i)
  {
    var idx := IndexFor(resp.daily.sunset[0], resp.hourly.time);
    if i == 0 && idx.Some? then
      AveragedCloudScore(resp.hourly.cloudcoverHigh[idx.value], resp.hourly.cloudcoverMid[idx.value],
                         resp.hourly.cloudcoverLow[idx.value])
    else
      Home.DailyCloudScore(resp.daily.cloudcoverMean[i])
  }

  function AveragedDayForecast(resp: ForecastResponse, fmt: Formatters, i: nat): Option<DailyForecast>
    requires resp.Covers() && i < |resp.daily.time|
  {
    match fmt.parseDay(resp.daily.time[i])
    case None => None
    case Some(d) => Some(DailyForecast(d, fmt.weekday(d), AveragedDayScore(resp, i)))
  }

  /** The list built from the first `n` daily indices. */
  function AveragedDays(resp: ForecastResponse, fmt: Formatters, n: nat): (days: seq<DailyForecast>)
    requires resp.Covers() && n <= |resp.daily.time|
    ensures |days| <= n
  {
    if n == 0 then [] else AveragedDays(resp, fmt, n - 1) + Home.Listed(AveragedDayForecast(resp, fmt, n - 1))
  }

  /** Same date and weekday; the score may differ. */
  predicate SameDay(x: DailyForecast, y: DailyForecast) {
    x.id == y.id && x.weekday == y.weekday
  }

  /**
   * This screen's list has the same days, dates and weekdays as HomeView's unblended list, and
   * the same score everywhere except possibly at the element built from daily index 0.
   * So the skip semantics of Home.ForecastDaysSkipUnparsed holds here too.
   */
  lemma {:induction false} AveragedDaysMatchForecastDays(resp: ForecastResponse, fmt: Formatters, n: nat)
    requires resp.Covers() && n <= |resp.daily.time|
    ensures |AveragedDays(resp, fmt, n)| == |Home.ForecastDays(resp, fmt, n)|
    ensures forall k :: 0 <= k < |AveragedDays(resp, fmt, n)| ==> SameDay(AveragedDays(resp, fmt, n)[k], Home.ForecastDays(resp, fmt, n)[k])
    ensures forall k :: 0 < k < |AveragedDays(resp, fmt, n)| ==> AveragedDays(resp, fmt, n)[k] == Home.ForecastDays(resp, fmt, n)[k]
    ensures 0 < n && fmt.parseDay(resp.daily.time[0]).None? ==> AveragedDays(resp, fmt, n) == Home.ForecastDays(resp, fmt, n)
  {
    if n > 0 {
      AveragedDaysMatchForecastDays(resp, fmt, n - 1);
      var a, f := AveragedDays(resp, fmt, n - 1), Home.ForecastDays(resp, fmt, n - 1);
      var parsed := fmt.parseDay(resp.daily.time[n - 1]);
      if parsed.Some? {
        var d := parsed.value;
        var x, y := DailyForecast(d, fmt.weekday(d), AveragedDayScore(resp, n - 1)),
                    DailyForecast(d, fmt.weekday(d), Home.DayCloudScore(resp, n - 1));
        assert AveragedDays(resp, fmt, n) == a + [x];
        assert Home.ForecastDays(resp, fmt, n) == f + [y];
        assert n - 1 > 0 ==> x == y;
      } else {
        assert AveragedDays(resp, fmt, n) == a;
        assert Home.ForecastDays(resp, fmt, n) == f;
      }
    }
  }

  /** The `for i in daily.time.indices` loop of `loadData`. */
  method BuildAveragedList(resp: ForecastResponse, fmt: Formatters) returns (list: seq<DailyForecast>)
    requires resp.Covers()
    ensures list == AveragedDays(resp, fmt, |resp.daily.time|)
  {
    list := [];
    var i := 0;
    while i < |resp.daily.time|
      invariant 0 <= i <= |resp.daily.time|
      invariant list == AveragedDays(resp, fmt, i)
    {
      var parsed := fmt.parseDay(resp.daily.time[i]);
      if parsed.Some? {
        var d := parsed.value;
        var wd := fmt.weekday(d);
        var sc: int;
        var idx := if i == 0 then IndexFor(resp.daily.sunset[i], resp.hourly.time) else None;
        if idx.Some? {
          var hi := resp.hourly.cloudcoverHigh[idx.value];
          var mi := resp.hourly.cloudcoverMid[idx.value];
          var lo := resp.hourly.cloudcoverLow[idx.value];
          sc := AveragedCloudScore(hi, mi, lo);
        } else {
          sc := Home.DailyCloudScore(resp.daily.cloudcoverMean[i]);
        }
        list := list + [DailyForecast(d, wd, sc)];
      }
      i := i + 1;
    }
  }

  /** `labelCloudMean`. */
  function LabelCloudMean(v: real): (text: string)
    ensures text in ["Clear", "Partly", "Overcast"]
    ensures text == "Clear" <==> v < 20.0
    ensures text == "Overcast" <==> 60.0 <= v
  {
    if v < 20.0 then "Clear" else if v < 60.0 then "Partly" else "Overcast"
  }

  /** `labelHighCloud`. */
  function LabelHighCloud(v: real): (text: string)
    ensures text in ["None", "Few", "Many"]
    ensures text == "None" <==> v < 10.0
    ensures text == "Many" <==> 40.0 <= v
  {
    if v < 10.0 then "None" else if v < 40.0 then "Few" else "Many"
  }

  /** `labelHumidity`. */
  function LabelHumidity(v: real): (text: string)
    ensures text in ["Dry", "OK", "Humid"]
    ensures text == "Dry" <==> v < 30.0
    ensures text == "Humid" <==> 70.0 <= v
  {
    if v < 30.0 then "Dry" else if v < 70.0 then "OK" else "Humid"
  }

  /** `labelAOD`. */
  function LabelAOD(v: real): (text: string)
    ensures text in ["Low", "Mod", "High"]
    ensures text == "Low" <==> v < 0.1
    ensures text == "High" <==> 0.3 <= v
  {
    if v < 0.1 then "Low" else if v < 0.3 then "Mod" else "High"
  }

  /** `@State` of ContentView that `loadData` writes. */
  class ContentView {
    var forecasts: seq<DailyForecast>
    var todayCloudMean: Option<real>
    var todayHighCloud: Option<real>
    var todayRh: Option<real>
    var todayAod: Option<real>
    var sunsetMoment: Option<Date>
    var goldenMoment: Option<Date>
    var errorMessage: Option<string>

    /** Nothing ever stores a humidity or an AOD value on this screen. */
    predicate Valid()
      reads this
    {
      todayRh.None? && todayAod.None?
    }

    /** The `if let cm, let hi, let rh, let ao` condition of `variableCardView`. */
    predicate ShowsConditionsGrid()
      reads this
    {
      todayCloudMean.Some? && todayHighCloud.Some? && todayRh.Some? && todayAod.Some?
    }

    constructor ()
      ensures Valid()
      ensures forecasts == [] && errorMessage.None?
      ensures todayCloudMean.None? && todayHighCloud.None?
      ensures sunsetMoment.None? && goldenMoment.None?
    {
      forecasts := [];
      todayCloudMean, todayHighCloud, todayRh, todayAod := None, None, None, None;
      sunsetMoment, goldenMoment := None, None;
      errorMessage := None;
    }

    /** Under the invariant kept by every state change, the conditions grid is never shown. */
    lemma ConditionsGridNeverShown()
      requires Valid()
      ensures !ShowsConditionsGrid()
    {
    }

    /**
     * The writes of `loadData(for:)`'s success branch: the sunset moments, today's mean, the
     * high cloud with humidity and AOD cleared when the sunset hour is found, then the list.
     */
    method StoreLoaded(list: seq<DailyForecast>, cloudMean: Option<real>, highCloud: Option<real>,
                       rh: Option<real>, aod: Option<real>, sunset: Option<Date>, golden: Option<Date>)
      modifies this
      ensures forecasts == list && todayCloudMean == cloudMean && todayHighCloud == highCloud
      ensures todayRh == rh && todayAod == aod && sunsetMoment == sunset && goldenMoment == golden
      ensures errorMessage == old(errorMessage)
    {
      sunsetMoment, goldenMoment := sunset, golden;
      todayCloudMean := cloudMean;
      todayHighCloud, todayRh, todayAod := highCloud, rh, aod;
      forecasts := list;
    }

    /**
     * `loadData(for:)` after the forecast request returned `fetched`. On failure only
     * `errorMessage` changes; on success `errorMessage` is left as it was. Unlike HomeView,
     * the hour lookup for today's high cloud does not depend on day 0's date parsing.
     */
    method LoadData(fetched: Result<ForecastResponse, string>, fmt: Formatters)
      requires fetched.Success? ==> Home.Loadable(fetched.value)
      requires Valid()
      modifies this
      ensures Valid()
      ensures fetched.Failure? ==>
        && errorMessage == Some(fetched.error)
        && forecasts == old(forecasts)
        && todayCloudMean == old(todayCloudMean) && todayHighCloud == old(todayHighCloud)
        && sunsetMoment == old(sunsetMoment) && goldenMoment == old(goldenMoment)
      ensures fetched.Success? ==> errorMessage == old(errorMessage)
      ensures fetched.Success? ==> forecasts == AveragedDays(fetched.value, fmt, |fetched.value.daily.time|)
      ensures fetched.Success? ==> todayCloudMean == Some(fetched.value.daily.cloudcoverMean[0])
      ensures fetched.Success? ==> (todayHighCloud ==
        match IndexFor(fetched.value.daily.sunset[0], fetched.value.hourly.time)
        case Some(idx) => Some(fetched.value.hourly.cloudcoverHigh[idx])
        case None => old(todayHighCloud))
      ensures fetched.Success? ==> sunsetMoment == Home.SunsetMoment(fetched.value, fmt).OrElse(old(sunsetMoment))
      ensures fetched.Success? ==> goldenMoment == Home.GoldenMoment(fetched.value, fmt).OrElse(old(goldenMoment))
    {
      match fetched
      case Failure(e) =>
        errorMessage := Some(e);
      case Success(resp) =>
        var list := BuildAveragedList(resp, fmt);
        var idx := IndexFor(resp.daily.sunset[0], resp.hourly.time);
        var high, rh, aod := todayHighCloud, todayRh, todayAod;
        if idx.Some? {
          high := Some(resp.hourly.cloudcoverHigh[idx.value]);
          rh, aod := None, None;
        }
        StoreLoaded(list, Some(resp.daily.cloudcoverMean[0]), high, rh, aod,
                    Home.SunsetMoment(resp, fmt).OrElse(sunsetMoment), Home.GoldenMoment(resp, fmt).OrElse(goldenMoment));
    }
  }
}
