/**
 * Views/FavoritesView.swift: `FavRow`, one saved place with today's sunset score, computed
 * from the hourly layers at the sunset hour by `updateScore` and its copy of `indexFor`
 * (Alignment.IndexFor).
 */
module FavoritesView {
  import opened Wrappers
  import opened Numerics
  import opened Models
  import opened Alignment
  import Content = ContentView

  /** The row's score: the mean of the three layers, truncated, then clamped to [0, 100]. */
  function RowScore(hi: real, mi: real, lo: real): (score: int)
    ensures 0 <= score <= 100
  {
    IntMax(0, IntMin(100, Trunc((hi + mi + lo) / 3.0)))
  }

  /**
   * Truncating before clamping (here) and clamping before truncating (Views/ContentView.swift)
   * give the same score for every input.
   */
  lemma RowScoreMatchesContentView(hi: real, mi: real, lo: real)
    ensures RowScore(hi, mi, lo) == Content.AveragedCloudScore(hi, mi, lo)
  {
    var avg := (hi + mi + lo) / 3.0;
    if avg < 0.0 {
      assert Trunc(avg) <= 0;
      assert Trunc(RealMax(0.0, RealMin(avg, 100.0))) == Trunc(0.0);
      TruncOfWhole(0);
    } else if avg > 100.0 {
      TruncMonotone(100.0, avg);
      TruncOfWhole(100);
    }
  }

  /** `FavRow`: the place shown, the local-time text and the score. */
  class FavRow {
    const location: Location
    var localTime: string
    var score: int

    /** Scores lie in [0, 100]. */
    predicate Valid()
      reads this
    {
      0 <= score <= 100
    }

    constructor (location: Location)
      ensures this.location == location
      ensures Valid()
      ensures localTime == "--:--" && score == 0
    {
      this.location := location;
      localTime := "--:--";
      score := 0;
    }

    /**
     * `updateScore` once the forecast request for `location` returned `fetched`: the score
     * changes only when the request succeeded, a first sunset exists and its hour is found.
     */
    method UpdateScore(fetched: Result<ForecastResponse, string>)
      requires fetched.Success? ==> fetched.value.hourly.Covers()
      requires Valid()
      modifies this
      ensures Valid()
      ensures localTime == old(localTime)
      ensures (score ==
        if fetched.Success? && fetched.value.daily.sunset != [] &&
           IndexFor(fetched.value.daily.sunset[0], fetched.value.hourly.time).Some?
        then
          var h := fetched.value.hourly;
          var idx := IndexFor(fetched.value.daily.sunset[0], h.time).value;
          RowScore(h.cloudcoverHigh[idx], h.cloudcoverMid[idx], h.cloudcoverLow[idx])
        else old(score))
    {
      if fetched.Success? {
        var resp := fetched.value;
        if resp.daily.sunset != [] {
          var isoSun := resp.daily.sunset[0];
          var idx := IndexFor(isoSun, resp.hourly.time);
          if idx.Some? {
            var hi := resp.hourly.cloudcoverHigh[idx.value];
            var mi := resp.hourly.cloudcoverMid[idx.value];
            var lo := resp.hourly.cloudcoverLow[idx.value];
            var avg := (hi + mi + lo) / 3.0;
            var raw := Trunc(avg);
            var clamped := IntMax(0, IntMin(100, raw));
            score := clamped;
          }
        }
      }
    }
  }
}
