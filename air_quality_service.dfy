/**
 * Services/AirQualityService.swift without its network fetch: the clarity score, the lookups
 * of the air-quality values at sunset, and `findClosestTimeIndex`.
 */
module AirQualityService {
  import opened Wrappers
  import opened Numerics
  import opened Models
  import opened Alignment

  /**
   * What the model requires of the logistic function `1 / (1 + exp(-x))`: its values lie in
   * [0, 1] and it never decreases.
   */
  ghost predicate UnitMonotone(sigmoid: real -> real) {
    && (forall x :: 0.0 <= sigmoid(x) <= 1.0)
    && (forall x, y :: x <= y ==> sigmoid(x) <= sigmoid(y))
  }

  /** The particulate proxy in µg/m³: `0.6 * pm25 + 0.4 * dust`. */
  function ProxyValue(dust: real, pm25: real): real {
    0.6 * pm25 + 0.4 * dust
  }

  /**
   * `calculateClarityScore`: with an AOD value the penalty is `60 * sigmoid((aod - 0.30) * 6)`;
   * without one it is `min(proxy / 5, 60)` with missing dust and PM2.5 read as 0. The score is
   * `100 - Int(penalty)` clamped to [0, 100].
   */
  function ClarityScore(aod: Option<real>, dust: Option<real>, pm25: Option<real>, sigmoid: real -> real): (score: int)
    requires UnitMonotone(sigmoid)
    ensures 40 <= score <= 100
    ensures aod.None? && dust.None? && pm25.None? ==> score == 100
  {
    match aod
    case Some(a) =>
      var penalty := 60.0 * sigmoid((a - 0.30) * 6.0);
      IntMax(0, IntMin(100, 100 - Trunc(penalty)))
    case None =>
      var penalty := RealMin(ProxyValue(dust.GetOr(0.0), pm25.GetOr(0.0)) / 5.0, 60.0);
      IntMax(0, IntMin(100, 100 - Trunc(penalty)))
  }

  /** Once AOD is known, dust and PM2.5 play no part. */
  lemma ClarityIgnoresFallbacksWithAod(a: real, dust1: Option<real>, pm1: Option<real>,
                                       dust2: Option<real>, pm2: Option<real>, sigmoid: real -> real)
    requires UnitMonotone(sigmoid)
    ensures ClarityScore(Some(a), dust1, pm1, sigmoid) == ClarityScore(Some(a), dust2, pm2, sigmoid)
  {
  }

  /** More aerosol never gives a clearer score. */
  lemma ClarityAntitoneInAod(a1: real, a2: real, dust: Option<real>, pm25: Option<real>, sigmoid: real -> real)
    requires UnitMonotone(sigmoid) && a1 <= a2
    ensures ClarityScore(Some(a2), dust, pm25, sigmoid) <= ClarityScore(Some(a1), dust, pm25, sigmoid)
  {
    assert (a1 - 0.30) * 6.0 <= (a2 - 0.30) * 6.0;
    TruncMonotone(60.0 * sigmoid((a1 - 0.30) * 6.0), 60.0 * sigmoid((a2 - 0.30) * 6.0));
  }

  /** Without AOD, a larger particulate proxy never gives a clearer score. */
  lemma ClarityAntitoneInProxy(dust1: Option<real>, pm1: Option<real>, dust2: Option<real>, pm2: Option<real>,
                               sigmoid: real -> real)
    requires UnitMonotone(sigmoid)
    requires ProxyValue(dust1.GetOr(0.0), pm1.GetOr(0.0)) <= ProxyValue(dust2.GetOr(0.0), pm2.GetOr(0.0))
    ensures ClarityScore(None, dust2, pm2, sigmoid) <= ClarityScore(None, dust1, pm1, sigmoid)
  {
    var p1 := ProxyValue(dust1.GetOr(0.0), pm1.GetOr(0.0));
    var p2 := ProxyValue(dust2.GetOr(0.0), pm2.GetOr(0.0));
    TruncMonotone(RealMin(p1 / 5.0, 60.0), RealMin(p2 / 5.0, 60.0));
  }

  /** A proxy of 300 µg/m³ or more reaches the 60-point cap: the score is 40. */
  lemma ClarityProxyCap(dust: Option<real>, pm25: Option<real>, sigmoid: real -> real)
    requires UnitMonotone(sigmoid)
    requires ProxyValue(dust.GetOr(0.0), pm25.GetOr(0.0)) >= 300.0
    ensures ClarityScore(None, dust, pm25, sigmoid) == 40
  {
    TruncOfWhole(60);
  }

  /**
   * `findClosestTimeIndex`: None for no times or a timestamp that is not "date T time"; else the
   * first entry of the same hour; else the first entry of the same day; else 0.
   */
  function FindClosestTimeIndex(timestamp: string, times: seq<string>): (r: Option<nat>)
    ensures r.Some? ==> r.value < |times|
    ensures r.None? <==> times == [] || HourLookupKey(timestamp).None?
    ensures times != [] && HourLookupKey(timestamp).Some? && !NoneWithPrefix(HourLookupKey(timestamp).value, times)
      ==> r.Some? && IsFirstWithPrefix(HourLookupKey(timestamp).value, times, r.value)
    ensures times != [] && HourLookupKey(timestamp).Some? && NoneWithPrefix(HourLookupKey(timestamp).value, times)
      ==> r.Some? &&
          (if NoneWithPrefix(DatePart(timestamp).value, times) then r.value == 0
           else IsFirstWithPrefix(DatePart(timestamp).value, times, r.value))
  {
    if times == [] then None
    else
      match HourLookupKey(timestamp)
      case None => None
      case Some(key) =>
        match FirstIndexWithPrefix(key, times)
        case Some(exact) => Some(exact)
        case None =>
          match FirstIndexWithPrefix(DatePart(timestamp).value, times)
          case None => Some(0)
          case Some(sameDay) => Some(sameDay)
  }

  /** Whenever the views' exact-hour match succeeds, the service picks the same index. */
  lemma ClosestAgreesWithExactHour(timestamp: string, times: seq<string>)
    requires IndexFor(timestamp, times).Some?
    ensures FindClosestTimeIndex(timestamp, times) == IndexFor(timestamp, times)
  {
    var key := HourLookupKey(timestamp).value;
    ExactHourResultUnique(timestamp, times, IndexFor(timestamp, times), FirstIndexWithPrefix(key, times));
  }

  /** `findAODForTime`: the (possibly null) AOD entry at the closest index, None when out of range. */
  function FindAODForTime(timestamp: string, response: AQResponse): (aod: Option<real>)
    ensures FindClosestTimeIndex(timestamp, response.hourly.time).None? ==> aod.None?
    ensures aod.Some? ==>
      var i := FindClosestTimeIndex(timestamp, response.hourly.time).value;
      i < |response.hourly.aerosolOpticalDepth| && response.hourly.aerosolOpticalDepth[i] == aod
    ensures FindClosestTimeIndex(timestamp, response.hourly.time).Some? &&
            FindClosestTimeIndex(timestamp, response.hourly.time).value < |response.hourly.aerosolOpticalDepth|
      ==> aod == response.hourly.aerosolOpticalDepth[FindClosestTimeIndex(timestamp, response.hourly.time).value]
  {
    match FindClosestTimeIndex(timestamp, response.hourly.time)
    case None => None
    case Some(i) =>
      if i < |response.hourly.aerosolOpticalDepth| then response.hourly.aerosolOpticalDepth[i] else None
  }

  /** The entry at `i` of an optional array of optional values; None when missing, out of range or null. */
  function EntryAt(values: Option<seq<Option<real>>>, i: nat): (v: Option<real>)
    ensures v.Some? ==> values.Some? && i < |values.value| && values.value[i] == v
    ensures values.Some? && i < |values.value| ==> v == values.value[i]
  {
    match values
    case None => None
    case Some(arr) => if i < |arr| then arr[i] else None
  }

  /** `findFallbackValues`: (dust, pm2.5) at the closest index, `(nil, nil)` when there is no index. */
  function FindFallbackValues(timestamp: string, response: AQResponse): (fallback: (Option<real>, Option<real>))
    ensures FindClosestTimeIndex(timestamp, response.hourly.time).None? ==> fallback == (None, None)
    ensures FindClosestTimeIndex(timestamp, response.hourly.time).Some? ==>
      var i := FindClosestTimeIndex(timestamp, response.hourly.time).value;
      fallback == (EntryAt(response.hourly.dust, i), EntryAt(response.hourly.pm25, i))
  {
    match FindClosestTimeIndex(timestamp, response.hourly.time)
    case None => (None, None)
    case Some(i) => (EntryAt(response.hourly.dust, i), EntryAt(response.hourly.pm25, i))
  }
}
