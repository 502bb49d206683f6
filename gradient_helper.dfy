/**
 * Helpers/GradientHelper.swift: the three background colour stops chosen from a sunset
 * score. Colours are kept as the "#RRGGBB" names the code passes to `Color(_:)`.
 */
module GradientHelper {
  import opened Wrappers

  /** `defaultGradient`, used when there is no score. */
  const DefaultGradient: seq<string> := ["#FF7E5F", "#FEB47B", "#FFB35C"]

  /** The four bands, from the best score down. */
  const Fiery: seq<string> := ["#FF5E3A", "#FF2A68", "#FF6B5C"]
  const Warm: seq<string> := ["#FF7E5F", "#FEB47B", "#FFB35C"]
  const Pastel: seq<string> := ["#FFD194", "#D1913C", "#E0C3FC"]
  const Muted: seq<string> := ["#6E6E6E", "#9E9E9E", "#BDBDBD"]

  /**
   * `gradientColorsForScore`. The code's thresholds are 80, 60 and 40; scores outside
   * [0, 100] fall into the outer bands.
   */
  function GradientColorsForScore(score: Option<int>): (colors: seq<string>)
    ensures |colors| == 3
    ensures score.None? ==> colors == DefaultGradient
    ensures score.Some? ==> (colors == Fiery <==> 80 <= score.value)
    ensures score.Some? ==> (colors == Warm <==> 60 <= score.value < 80)
    ensures score.Some? ==> (colors == Pastel <==> 40 <= score.value < 60)
    ensures score.Some? ==> (colors == Muted <==> score.value < 40)
  {
    match score
    case None => DefaultGradient
    case Some(s) =>
      if s >= 80 then Fiery
      else if s >= 60 then Warm
      else if s >= 40 then Pastel
      else Muted
  }

  /** The position of a colour triple among the bands (0 = muted, 3 = fiery). */
  function BandRank(colors: seq<string>): nat {
    if colors == Fiery then 3
    else if colors == Warm then 2
    else if colors == Pastel then 1
    else 0
  }

  /** A higher score never gives a lower band. */
  lemma GradientBandMonotone(s1: int, s2: int)
    requires s1 <= s2
    ensures BandRank(GradientColorsForScore(Some(s1))) <= BandRank(GradientColorsForScore(Some(s2)))
  {
  }

  /** Scores from 60 to 79 show the same colours as no score at all. */
  lemma WarmBandIsDefault(s: int)
    requires 60 <= s < 80
    ensures GradientColorsForScore(Some(s)) == GradientColorsForScore(None)
  {
  }

  /**
   * SunsetForecastTests/GradientHelperTests.swift describes the bands as 80-100, 50-79 and
   * 1-49 and expects 25 and 1 in the pastel band and 50 in the warm band. The code's
   * thresholds put 25 and 1 in the muted band and 50 in the pastel band.
   */
  lemma CodeDisagreesWithTestedBoundaries()
    ensures GradientColorsForScore(Some(25)) == Muted && GradientColorsForScore(Some(1)) == Muted
    ensures GradientColorsForScore(Some(50)) == Pastel
    ensures Muted != Pastel && Pastel != Warm
  {
  }

  /** The other expectations of the same tests hold for the code. */
  lemma CodeMeetsRemainingTestedScores()
    ensures GradientColorsForScore(Some(85)) == Fiery && GradientColorsForScore(Some(80)) == Fiery
    ensures GradientColorsForScore(Some(150)) == Fiery
    ensures GradientColorsForScore(Some(65)) == Warm && GradientColorsForScore(Some(79)) == Warm
    ensures GradientColorsForScore(Some(49)) == Pastel
    ensures GradientColorsForScore(Some(0)) == Muted && GradientColorsForScore(Some(-10)) == Muted
    ensures GradientColorsForScore(None) == Warm
  {
  }
}
