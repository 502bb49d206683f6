/**
 * Views/HomeView.swift: the scoring part of `loadData` and `indexFor`. The forecast list is built
 * over the daily dates, days whose date does not parse are skipped, day 0 is scored from the hourly
 * cloud layers at sunset when its hour is found, every other day from the inverted daily mean, and
 * the first list element is then blended 70/30 with the clarity score. Views/LocationPreview.swift
 * holds an identical copy and reuses the functions defined here.
 */
module HomeView {
  import opened Wrappers
  import opened Numerics
  import opened Environment
  import opened Models
  import opened Alignment
  import opened AirQualityService

  /** The worked alignment example: 19:42 falls in the 19:00 entry. */
  lemma IndexForExample(sunset: string, hours: seq<string>)
    requires sunset == "2025-04-26T19:42"
    requires hours == ["2025-04-26T18:00", "2025-04-26T19:00", "2025-04-26T20:00"]
    ensures IndexFor(sunset, hours) == Some(1)
  {
    var date, hour, minutes := "2025-04-26", "19", "42";
    assert sunset == date + "T" + hour + ":" + minutes;
    LookupKeyOfTimestamp(date, hour, minutes);
    var key := date + "T" + hour + ":";
    assert key == "2025-04-26T19:";
    assert !HasPrefix(hours[0], key) by {
      assert hours[0][12] != key[12];
    }
    assert HasPrefix(hours[1][1..], key[1..]);
    assert HasPrefix(hours[1..][0], key);
    assert FirstIndexWithPrefix(key, hours[1..]) == Some(0);
  }

  /** Day-0 hourly score: `50 + Int((0.4 * hi + 0.0 * mi - 0.3 * lo).clamped(to: -50...50))`. */
  function HourlyCloudScore(hi: real, mi: real, lo: real): (score: int)
    ensures 0 <= score <= 100
  {
    50 + Trunc(Clamped(0.4 * hi + 0.0 * mi - 0.3 * lo, -50.0, 50.0))
  }

  /** More high cloud or less low cloud never lowers the hourly score; mid cloud has no effect. */
  lemma HourlyCloudScoreMonotone(hi1: real, mi1: real, lo1: real, hi2: real, mi2: real, lo2: real)
    requires hi1 <= hi2 && lo2 <= lo1
    ensures HourlyCloudScore(hi1, mi1, lo1) <= HourlyCloudScore(hi2, mi2, lo2)
  {
    var w1 := 0.4 * hi1 + 0.0 * mi1 - 0.3 * lo1;
    var w2 := 0.4 * hi2 + 0.0 * mi2 - 0.3 * lo2;
    ClampedMonotone(w1, w2, -50.0, 50.0);
    TruncMonotone(Clamped(w1, -50.0, 50.0), Clamped(w2, -50.0, 50.0));
  }

  /** hi = 100, lo = 0 gives 90; hi = 0, lo = 100 gives 20; whatever the mid layer. */
  lemma HourlyCloudScoreExamples(mi: real)
    ensures HourlyCloudScore(100.0, mi, 0.0) == 90
    ensures HourlyCloudScore(0.0, mi, 100.0) == 20
  {
    TruncOfWhole(40);
    TruncOfWhole(-30);
  }

  /** Other-day score: `max(0, 100 - Int(mean))`. */
  function DailyCloudScore(mean: real): (score: int)
    ensures 0 <= score
    ensures 0.0 <= mean ==> score <= 100
    ensures 100.0 <= mean ==> score == 0
  {
    IntMax(0, 100 - Trunc(mean))
  }

  /** Mean 0 scores 100, and a larger mean never scores higher. */
  lemma DailyCloudScoreAntitone(m1: real, m2: real)
    requires m1 <= m2
    ensures DailyCloudScore(0.0) == 100
    ensures DailyCloudScore(m2) <= DailyCloudScore(m1)
  {
    TruncOfWhole(0);
    TruncMonotone(m1, m2);
  }

  /** `max(0, min(100, Int(0.7 * score + 0.3 * clarity)))`. */
  function BlendScore(cloud: int, clarity: int): (score: int)
    ensures 0 <= score <= 100
  {
    IntMax(0, IntMin(100, Trunc(0.7 * cloud as real + 0.3 * clarity as real)))
  }

  /** A blend of two scores in [0, 100] lies between them. */
  lemma BlendBetween(cloud: int, clarity: int)
    requires 0 <= cloud <= 100 && 0 <= clarity <= 100
    ensures IntMin(cloud, clarity) <= BlendScore(cloud, clarity) <= IntMax(cloud, clarity)
  {
    var x := 0.7 * cloud as real + 0.3 * clarity as real;
    var lo := IntMin(cloud, clarity);
    assert lo as real <= x;
    TruncOfWhole(lo);
    TruncMonotone(lo as real, x);
  }

  /** Cloud 80 and clarity 50 blend to 71. */
  lemma BlendExample()
    ensures BlendScore(80, 50) == 71
  {
    TruncOfWhole(71);
  }

  /**
   * With clarity 100 (no air-quality data) the blend is `Int(0.7 * cloud + 30)`: never below the
   * cloud score, and equal to it only for cloud scores of 97 and up.
   */
  lemma BlendWithFullClarity(cloud: int)
    requires 0 <= cloud <= 100
    ensures cloud <= BlendScore(cloud, 100)
    ensures BlendScore(cloud, 100) == cloud <==> 97 <= cloud
  {
    var x := 0.7 * cloud as real + 0.3 * 100 as real;
    assert cloud as real <= x;
    TruncOfWhole(cloud);
    TruncMonotone(cloud as real, x);
    if 97 <= cloud {
      assert x < cloud as real + 1.0;
    } else {
      assert cloud as real + 1.0 <= x;
      TruncOfWhole(cloud + 1);
      TruncMonotone((cloud + 1) as real, x);
    }
  }

  /** The views' precondition on a decoded weather response: `sunset[0]` and `cloudcover_mean[0]` are read unconditionally. */
  predicate Loadable(resp: ForecastResponse) {
    resp.Covers() && |resp.daily.sunset| > 0 && |resp.daily.cloudcoverMean| > 0
  }

  /** The score of daily index `i`: hourly mode only for day 0 with a found hour, daily mode otherwise. */
  function DayCloudScore(resp: ForecastResponse, i: nat): (score: int)
    requires resp.Covers() && i < |resp.daily.time|
    ensures 0 <= score
    ensures 0.0 <= resp.daily.cloudcoverMean[i] ==> score <= 100
  {
    var idx := IndexFor(resp.daily.sunset[0], resp.hourly.time);
    if i == 0 && idx.Some? then
      HourlyCloudScore(resp.hourly.cloudcoverHigh[idx.value], resp.hourly.cloudcoverMid[idx.value],
                       resp.hourly.cloudcoverLow[idx.value])
    else
      DailyCloudScore(resp.daily.cloudcoverMean[i])
  }

  /** The list element for daily index `i`, or None when its date does not parse. */
  function DayForecast(resp: ForecastResponse, fmt: Formatters, i: nat): Option<DailyForecast>
    requires resp.Covers() && i < |resp.daily.time|
  {
    match fmt.parseDay(resp.daily.time[i])
    case None => None
    case Some(d) => Some(DailyForecast(d, fmt.weekday(d), DayCloudScore(resp, i)))
  }

  /** The one-element list for a present value, the empty list for None. */
  function Listed<T>(o: Option<T>): seq<T> {
    match o
    case None => []
    case Some(v) => [v]
  }

  /** The list built from the first `n` daily indices, before the blend. */
  function ForecastDays(resp: ForecastResponse, fmt: Formatters, n: nat): (days: seq<DailyForecast>)
    requires resp.Covers() && n <= |resp.daily.time|
    ensures |days| <= n
  {
    if n == 0 then [] else ForecastDays(resp, fmt, n - 1) + Listed(DayForecast(resp, fmt, n - 1))
  }

  /** The daily indices below `n` whose date parses, in increasing order. */
  function ParsedIndices(resp: ForecastResponse, fmt: Formatters, n: nat): seq<nat>
    requires n <= |resp.daily.time|
  {
    if n == 0 then []
    else ParsedIndices(resp, fmt, n - 1) + (if fmt.parseDay(resp.daily.time[n - 1]).Some? then [n - 1] else [])
  }

  /** The parsed indices are below `n`, strictly increasing, and are exactly the indices whose date parses. */
  lemma {:induction false} ParsedIndicesOrdered(resp: ForecastResponse, fmt: Formatters, n: nat)
    requires n <= |resp.daily.time|
    ensures forall k :: 0 <= k < |ParsedIndices(resp, fmt, n)| ==> ParsedIndices(resp, fmt, n)[k] < n
    ensures forall k, l :: 0 <= k < l < |ParsedIndices(resp, fmt, n)| ==>
      ParsedIndices(resp, fmt, n)[k] < ParsedIndices(resp, fmt, n)[l]
    ensures forall i :: 0 <= i < n ==> (i in ParsedIndices(resp, fmt, n) <==> fmt.parseDay(resp.daily.time[i]).Some?)
  {
    if n > 0 {
      ParsedIndicesOrdered(resp, fmt, n - 1);
      var idx := ParsedIndices(resp, fmt, n - 1);
      if fmt.parseDay(resp.daily.time[n - 1]).Some? {
        assert ParsedIndices(resp, fmt, n) == idx + [n - 1];
      } else {
        assert ParsedIndices(resp, fmt, n) == idx;
      }
    }
  }

  /** One list element per parsed index. */
  lemma {:induction false} ForecastDaysLength(resp: ForecastResponse, fmt: Formatters, n: nat)
    requires resp.Covers() && n <= |resp.daily.time|
    ensures |ForecastDays(resp, fmt, n)| == |ParsedIndices(resp, fmt, n)|
  {
    if n > 0 {
      ForecastDaysLength(resp, fmt, n - 1);
    }
  }

  /** The `k`-th list element is DayForecast at the `k`-th parsed index. */
  lemma {:induction false} ForecastDaysAt(resp: ForecastResponse, fmt: Formatters, n: nat, k: nat)
    requires resp.Covers() && n <= |resp.daily.time| && k < |ParsedIndices(resp, fmt, n)|
    ensures k < |ForecastDays(resp, fmt, n)| && ParsedIndices(resp, fmt, n)[k] < n
    ensures DayForecast(resp, fmt, ParsedIndices(resp, fmt, n)[k]) == Some(ForecastDays(resp, fmt, n)[k])
  {
    ForecastDaysLength(resp, fmt, n - 1);
    var days, idx := ForecastDays(resp, fmt, n - 1), ParsedIndices(resp, fmt, n - 1);
    if fmt.parseDay(resp.daily.time[n - 1]).Some? {
      var last := DayForecast(resp, fmt, n - 1);
      assert ForecastDays(resp, fmt, n) == days + [last.value];
      assert ParsedIndices(resp, fmt, n) == idx + [n - 1];
      if k < |idx| {
        ForecastDaysAt(resp, fmt, n - 1, k);
        assert ForecastDays(resp, fmt, n)[k] == days[k] && ParsedIndices(resp, fmt, n)[k] == idx[k];
      } else {
        assert ForecastDays(resp, fmt, n)[k] == last.value && ParsedIndices(resp, fmt, n)[k] == n - 1;
      }
    } else {
      assert ForecastDays(resp, fmt, n) == days;
      assert ParsedIndices(resp, fmt, n) == idx;
      ForecastDaysAt(resp, fmt, n - 1, k);
    }
  }

  /**
   * Skip semantics: the list holds exactly one element per daily index whose date parses, in
   * increasing index order, and the element for index `i` is DayForecast(resp, fmt, i).
   */
  lemma ForecastDaysSkipUnparsed(resp: ForecastResponse, fmt: Formatters, n: nat)
    requires resp.Covers() && n <= |resp.daily.time|
    ensures |ForecastDays(resp, fmt, n)| == |ParsedIndices(resp, fmt, n)|
    ensures forall k :: 0 <= k < |ParsedIndices(resp, fmt, n)| ==>
      ParsedIndices(resp, fmt, n)[k] < n &&
      DayForecast(resp, fmt, ParsedIndices(resp, fmt, n)[k]) == Some(ForecastDays(resp, fmt, n)[k])
    ensures forall k, l :: 0 <= k < l < |ParsedIndices(resp, fmt, n)| ==>
      ParsedIndices(resp, fmt, n)[k] < ParsedIndices(resp, fmt, n)[l]
    ensures forall i :: 0 <= i < n ==> (i in ParsedIndices(resp, fmt, n) <==> fmt.parseDay(resp.daily.time[i]).Some?)
  {
    ParsedIndicesOrdered(resp, fmt, n);
    ForecastDaysLength(resp, fmt, n);
    forall k | 0 <= k < |ParsedIndices(resp, fmt, n)|
      ensures ParsedIndices(resp, fmt, n)[k] < n &&
        DayForecast(resp, fmt, ParsedIndices(resp, fmt, n)[k]) == Some(ForecastDays(resp, fmt, n)[k])
    {
      ForecastDaysAt(resp, fmt, n, k);
    }
  }

  /** Every score in the list is at least 0, and at most 100 when the daily means are not negative. */
  lemma ForecastDaysScoresBounded(resp: ForecastResponse, fmt: Formatters)
    requires resp.Covers()
    ensures forall k :: 0 <= k < |ForecastDays(resp, fmt, |resp.daily.time|)| ==>
      0 <= ForecastDays(resp, fmt, |resp.daily.time|)[k].score
    ensures (forall i :: 0 <= i < |resp.daily.time| ==> 0.0 <= resp.daily.cloudcoverMean[i]) ==>
      forall k :: 0 <= k < |ForecastDays(resp, fmt, |resp.daily.time|)| ==>
        ForecastDays(resp, fmt, |resp.daily.time|)[k].score <= 100
  {
    ForecastDaysSkipUnparsed(resp, fmt, |resp.daily.time|);
  }

  /** Only the first list element can come from the hourly formula: every later one is in daily mode. */
  lemma LaterDaysUseDailyMean(resp: ForecastResponse, fmt: Formatters, k: nat)
    requires resp.Covers() && 0 < k < |ForecastDays(resp, fmt, |resp.daily.time|)|
    ensures |ParsedIndices(resp, fmt, |resp.daily.time|)| == |ForecastDays(resp, fmt, |resp.daily.time|)|
    ensures var i := ParsedIndices(resp, fmt, |resp.daily.time|)[k];
      0 < i < |resp.daily.time| &&
      ForecastDays(resp, fmt, |resp.daily.time|)[k].score == DailyCloudScore(resp.daily.cloudcoverMean[i])
  {
    ForecastDaysSkipUnparsed(resp, fmt, |resp.daily.time|);
    var idx := ParsedIndices(resp, fmt, |resp.daily.time|);
    assert idx[0] < idx[k];
  }

  /** The hourly index used for day 0: its date parses and its sunset hour is found. */
  function TodayHourIndex(resp: ForecastResponse, fmt: Formatters): (idx: Option<nat>)
    requires resp.Covers()
    ensures idx.Some? ==> idx.value < |resp.hourly.time| && |resp.daily.time| > 0
    ensures idx.Some? <==> |resp.daily.time| > 0 && fmt.parseDay(resp.daily.time[0]).Some? &&
                           IndexFor(resp.daily.sunset[0], resp.hourly.time).Some?
  {
    if |resp.daily.time| > 0 && fmt.parseDay(resp.daily.time[0]).Some? then
      IndexFor(resp.daily.sunset[0], resp.hourly.time)
    else None
  }

  /** An hourly value at day 0's sunset hour, when the hourly formula was used. */
  function TodayReading(resp: ForecastResponse, fmt: Formatters, values: seq<real>): (v: Option<real>)
    requires resp.Covers() && |resp.hourly.time| <= |values|
    ensures v.Some? <==> TodayHourIndex(resp, fmt).Some?
  {
    match TodayHourIndex(resp, fmt)
    case None => None
    case Some(idx) => Some(values[idx])
  }

  /**
   * The `for i in resp.daily.time.indices` loop: the list before the blend, plus the cloud cover
   * and humidity at sunset that the loop stores when day 0 takes the hourly formula.
   */
  method BuildForecastList(resp: ForecastResponse, fmt: Formatters)
    returns (list: seq<DailyForecast>, cloudAtSun: Option<real>, humidity: Option<real>)
    requires resp.Covers()
    ensures list == ForecastDays(resp, fmt, |resp.daily.time|)
    ensures cloudAtSun == TodayReading(resp, fmt, resp.hourly.cloudcover)
    ensures humidity == TodayReading(resp, fmt, resp.hourly.relativehumidity2m)
  {
    list, cloudAtSun, humidity := [], None, None;
    var i := 0;
    while i < |resp.daily.time|
      invariant 0 <= i <= |resp.daily.time|
      invariant list == ForecastDays(resp, fmt, i)
      invariant cloudAtSun == if i == 0 then None else TodayReading(resp, fmt, resp.hourly.cloudcover)
      invariant humidity == if i == 0 then None else TodayReading(resp, fmt, resp.hourly.relativehumidity2m)
    {
      var parsed := fmt.parseDay(resp.daily.time[i]);
      if parsed.Some? {
        var d := parsed.value;
        var wd := fmt.weekday(d);
        var sc: int;
        var idx := if i == 0 then IndexFor(resp.daily.sunset[i], resp.hourly.time) else None;
        if idx.Some? {
          var hi := resp.hourly.cloudcoverHigh[idx.value];
          var mi := resp.hourly.cloudcoverMid[idx.value];
          var lo := resp.hourly.cloudcoverLow[idx.value];
          sc := HourlyCloudScore(hi, mi, lo);
          cloudAtSun := Some(resp.hourly.cloudcover[idx.value]);
          humidity := Some(resp.hourly.relativehumidity2m[idx.value]);
        } else {
          sc := DailyCloudScore(resp.daily.cloudcoverMean[i]);
        }
        list := list + [DailyForecast(d, wd, sc)];
      }
      i := i + 1;
    }
  }

  /** Replace the first element's score by its blend with `clarity`, keeping its id and weekday. */
  function BlendFirst(list: seq<DailyForecast>, clarity: int): (out: seq<DailyForecast>)
    ensures |out| == |list|
    ensures list != [] ==> out[0].id == list[0].id && out[0].weekday == list[0].weekday
    ensures list != [] ==> out[0].score == BlendScore(list[0].score, clarity)
    ensures forall k :: 0 < k < |list| ==> out[k] == list[k]
  {
    if list == [] then []
    else [DailyForecast(list[0].id, list[0].weekday, BlendScore(list[0].score, clarity))] + list[1..]
  }

  /** The three air-quality readings at today's sunset. */
  datatype AirInputs = AirInputs(aod: Option<real>, dust: Option<real>, pm25: Option<real>)

  /** All nil when the air-quality fetch failed; otherwise the lookups at `daily.sunset.first`. */
  function TodayAirInputs(resp: ForecastResponse, aqFetched: Result<AQResponse, string>): (air: AirInputs)
    ensures aqFetched.Failure? || resp.daily.sunset == [] ==> air == AirInputs(None, None, None)
    ensures aqFetched.Success? && resp.daily.sunset != [] ==>
      air.aod == FindAODForTime(resp.daily.sunset[0], aqFetched.value) &&
      (air.dust, air.pm25) == FindFallbackValues(resp.daily.sunset[0], aqFetched.value)
  {
    match aqFetched
    case Failure(_) => AirInputs(None, None, None)
    case Success(aq) =>
      if resp.daily.sunset == [] then AirInputs(None, None, None)
      else
        var fallback := FindFallbackValues(resp.daily.sunset[0], aq);
        AirInputs(FindAODForTime(resp.daily.sunset[0], aq), fallback.0, fallback.1)
  }

  /** The clarity score used for the blend. */
  function TodayClarity(resp: ForecastResponse, aqFetched: Result<AQResponse, string>, sigmoid: real -> real): (clarity: int)
    requires UnitMonotone(sigmoid)
    ensures 40 <= clarity <= 100
  {
    var air := TodayAirInputs(resp, aqFetched);
    ClarityScore(air.aod, air.dust, air.pm25, sigmoid)
  }

  /** A failed air-quality fetch leaves clarity at 100 and the blend still runs on the first element. */
  lemma AirQualityFailureStillBlends(resp: ForecastResponse, e: string, list: seq<DailyForecast>, sigmoid: real -> real)
    requires UnitMonotone(sigmoid) && list != []
    ensures TodayClarity(resp, Failure(e), sigmoid) == 100
    ensures BlendFirst(list, TodayClarity(resp, Failure(e), sigmoid))[0].score == BlendScore(list[0].score, 100)
  {
  }

  /**
   * The blend lands on `list.first`, the first day that parsed: when day 0's date does not parse
   * and day 1's does, day 1's daily-mode score is blended with today's clarity.
   */
  lemma BlendHitsFirstParsedDay(resp: ForecastResponse, fmt: Formatters, clarity: int)
    requires resp.Covers() && |resp.daily.time| >= 2
    requires fmt.parseDay(resp.daily.time[0]).None? && fmt.parseDay(resp.daily.time[1]).Some?
    ensures var out := BlendFirst(ForecastDays(resp, fmt, |resp.daily.time|), clarity);
      out != [] &&
      out[0].id == fmt.parseDay(resp.daily.time[1]).value &&
      out[0].score == BlendScore(DailyCloudScore(resp.daily.cloudcoverMean[1]), clarity)
  {
    ForecastDaysSkipUnparsed(resp, fmt, |resp.daily.time|);
    var idx := ParsedIndices(resp, fmt, |resp.daily.time|);
    assert 1 in idx && 0 !in idx;
    var k :| 0 <= k < |idx| && idx[k] == 1;
  }

  /** Day 0's sunset parsed with the minute formatter. */
  function SunsetMoment(resp: ForecastResponse, fmt: Formatters): Option<Date>
    requires |resp.daily.sunset| > 0
  {
    fmt.parseMinute(resp.daily.sunset[0])
  }

  /** The golden moment, half an hour (1800 s) before the parsed sunset. */
  function GoldenMoment(resp: ForecastResponse, fmt: Formatters): (golden: Option<Date>)
    requires |resp.daily.sunset| > 0
    ensures golden.Some? <==> SunsetMoment(resp, fmt).Some?
    ensures golden.Some? ==> golden.value == SunsetMoment(resp, fmt).value - 1800
  {
    match SunsetMoment(resp, fmt)
    case None => None
    case Some(sun) => Some(sun - 1800)
  }

  /**
   * The part of `loadData`'s success branch that touches no view state: the list with its first
   * element blended with the sunset air clarity, the two readings the loop stored, and the sunset AOD.
   */
  method LoadedForecast(resp: ForecastResponse, aqFetched: Result<AQResponse, string>,
                        fmt: Formatters, sigmoid: real -> real)
    returns (list: seq<DailyForecast>, cloudAtSun: Option<real>, humidity: Option<real>, aod: Option<real>)
    requires resp.Covers() && UnitMonotone(sigmoid)
    ensures list == BlendFirst(ForecastDays(resp, fmt, |resp.daily.time|), TodayClarity(resp, aqFetched, sigmoid))
    ensures cloudAtSun == TodayReading(resp, fmt, resp.hourly.cloudcover)
    ensures humidity == TodayReading(resp, fmt, resp.hourly.relativehumidity2m)
    ensures aod == TodayAirInputs(resp, aqFetched).aod
  {
    list, cloudAtSun, humidity := BuildForecastList(resp, fmt);
    var air := TodayAirInputs(resp, aqFetched);
    ghost var built := list;
    if list != [] {
      var clarityScore := ClarityScore(air.aod, air.dust, air.pm25, sigmoid);
      var firstDay := list[0];
      list := list[0 := DailyForecast(firstDay.id, firstDay.weekday, BlendScore(firstDay.score, clarityScore))];
      assert list == BlendFirst(built, clarityScore);
    }
    aod := air.aod;
  }

  /** `@State` of HomeView that `loadData` writes (the loading flag and location name are left out). */
  class HomeView {
    var forecasts: seq<DailyForecast>
    var todayCloudMean: Option<real>
    var todayCloudAtSun: Option<real>
    var todayAod: Option<real>
    var todayHumidity: Option<real>
    var sunsetMoment: Option<Date>
    var goldenMoment: Option<Date>
    var errorMessage: Option<string>

    constructor ()
      ensures forecasts == [] && errorMessage.None?
      ensures todayCloudMean.None? && todayCloudAtSun.None? && todayAod.None? && todayHumidity.None?
      ensures sunsetMoment.None? && goldenMoment.None?
    {
      forecasts := [];
      todayCloudMean, todayCloudAtSun, todayAod, todayHumidity := None, None, None, None;
      sunsetMoment, goldenMoment := None, None;
      errorMessage := None;
    }

    /**
     * The writes of `loadData`'s success branch: the readings the loop stores, the sunset moments,
     * the cloud mean and AOD, and the commit of the list with the error cleared.
     */
    method StoreLoaded(list: seq<DailyForecast>, cloudMean: Option<real>, cloudAtSun: Option<real>, aod: Option<real>,
                       humidity: Option<real>, sunset: Option<Date>, golden: Option<Date>)
      modifies this
      ensures forecasts == list && todayCloudMean == cloudMean && todayCloudAtSun == cloudAtSun && todayAod == aod
      ensures todayHumidity == humidity && sunsetMoment == sunset && goldenMoment == golden && errorMessage.None?
    {
      todayCloudAtSun, todayHumidity := cloudAtSun, humidity;
      sunsetMoment, goldenMoment := sunset, golden;
      todayCloudMean, todayAod := cloudMean, aod;
      forecasts, errorMessage := list, None;
    }

    /**
     * `loadData` after both fetches: `fetched` and `aqFetched` are the outcomes of the weather and
     * air-quality requests, `fmt` the date formatters, `sigmoid` the logistic function.
     */
    method LoadData(fetched: Result<ForecastResponse, string>, aqFetched: Result<AQResponse, string>,
                    fmt: Formatters, sigmoid: real -> real)
      requires fetched.Success? ==> Loadable(fetched.value)
      requires UnitMonotone(sigmoid)
      modifies this
      ensures fetched.Failure? ==>
        && errorMessage == Some(fetched.error)
        && forecasts == old(forecasts)
        && todayCloudMean == old(todayCloudMean) && todayCloudAtSun == old(todayCloudAtSun)
        && todayAod == old(todayAod) && todayHumidity == old(todayHumidity)
        && sunsetMoment == old(sunsetMoment) && goldenMoment == old(goldenMoment)
      ensures fetched.Success? ==> errorMessage.None?
      ensures fetched.Success? ==> (forecasts ==
        BlendFirst(ForecastDays(fetched.value, fmt, |fetched.value.daily.time|), TodayClarity(fetched.value, aqFetched, sigmoid)))
      ensures fetched.Success? ==> todayCloudMean == Some(fetched.value.daily.cloudcoverMean[0])
      ensures fetched.Success? ==> todayAod == TodayAirInputs(fetched.value, aqFetched).aod
      ensures fetched.Success? ==>
        todayCloudAtSun == TodayReading(fetched.value, fmt, fetched.value.hourly.cloudcover).OrElse(old(todayCloudAtSun))
      ensures fetched.Success? ==>
        todayHumidity == TodayReading(fetched.value, fmt, fetched.value.hourly.relativehumidity2m).OrElse(old(todayHumidity))
      ensures fetched.Success? ==> sunsetMoment == SunsetMoment(fetched.value, fmt).OrElse(old(sunsetMoment))
      ensures fetched.Success? ==> goldenMoment == GoldenMoment(fetched.value, fmt).OrElse(old(goldenMoment))
    {
      match fetched
      case Failure(e) =>
        errorMessage := Some(e);
      case Success(resp) =>
        var list, cloudAtSun, humidity, aod := LoadedForecast(resp, aqFetched, fmt, sigmoid);
        StoreLoaded(list, Some(resp.daily.cloudcoverMean[0]), cloudAtSun.OrElse(todayCloudAtSun), aod,
                    humidity.OrElse(todayHumidity), SunsetMoment(resp, fmt).OrElse(sunsetMoment),
                    GoldenMoment(resp, fmt).OrElse(goldenMoment));
    }
  }
}
