/**
 * Views/Components/TodayConditionsCard.swift: the four tiles of the "Today's Conditions"
 * card, each showing a label for its value or "Loading..." while the value is nil.
 */
module TodayConditionsCard {
  import opened Wrappers
  import opened Numerics
  import Content = ContentView

  /** What `variableTile(icon:title:label:)` shows. */
  datatype Tile = Tile(icon: string, title: string, text: string)

  const Loading: string := "Loading..."

  /** `labelHumidity`. */
  function LabelHumidity(v: real): (text: string)
    ensures text in ["Dry", "OK", "Humid"]
    ensures text == "Dry" <==> v < 40.0
    ensures text == "Humid" <==> 70.0 <= v
  {
    if v < 40.0 then "Dry" else if v < 70.0 then "OK" else "Humid"
  }

  /**
   * `labelCloudMean` and `labelAOD` are the same ternary chains as in Views/ContentView.swift
   * (ContentView.LabelCloudMean, ContentView.LabelAOD); `labelHumidity` is not: it starts "OK"
   * at 40 rather than 30, so readings in [30, 40) are "Dry" here and "OK" there.
   */
  lemma HumidityLabelsDiffer(v: real)
    ensures LabelHumidity(v) == Content.LabelHumidity(v) <==> !(30.0 <= v < 40.0)
  {
  }

  /** One decimal digit. */
  function DigitChar(d: nat): (c: char)
    requires d < 10
    ensures '0' <= c <= '9'
  {
    "0123456789"[d]
  }

  function DigitValue(c: char): (d: nat)
    requires '0' <= c <= '9'
    ensures d < 10
  {
    (c as int - '0' as int) as nat
  }

  lemma DigitRoundTrip(d: nat)
    requires d < 10
    ensures DigitValue(DigitChar(d)) == d
  {
  }

  /** The decimal digits of `n`, most significant first, with no leading zero. */
  function NatString(n: nat): (s: string)
    ensures |s| > 0
    ensures forall k :: 0 <= k < |s| ==> '0' <= s[k] <= '9'
    ensures s[0] == '0' ==> n == 0
    decreases n
  {
    if n < 10 then [DigitChar(n)] else NatString(n / 10) + [DigitChar(n % 10)]
  }

  /** The number a string of decimal digits denotes. */
  function DigitsValue(s: string): nat
    requires forall k :: 0 <= k < |s| ==> '0' <= s[k] <= '9'
  {
    if s == [] then 0 else 10 * DigitsValue(s[..|s| - 1]) + DigitValue(s[|s| - 1])
  }

  lemma {:induction false} NatStringRoundTrip(n: nat)
    ensures DigitsValue(NatString(n)) == n
    decreases n
  {
    var s := NatString(n);
    if n < 10 {
      DigitRoundTrip(n);
    } else {
      NatStringRoundTrip(n / 10);
      DigitRoundTrip(n % 10);
      assert s[..|s| - 1] == NatString(n / 10);
    }
  }

  /** An optional minus sign followed by at least one decimal digit. */
  predicate IsIntText(s: string) {
    && |s| > 0
    && (s[0] == '-' ==> |s| > 1)
    && forall k :: (if s[0] == '-' then 1 else 0) <= k < |s| ==> '0' <= s[k] <= '9'
  }

  /** String interpolation of an `Int`: a minus sign, then the digits of the magnitude. */
  function IntString(n: int): (s: string)
    ensures IsIntText(s)
    ensures s[0] == '-' <==> n < 0
  {
    var digits := NatString(if n < 0 then -n else n);
    assert digits[0] != '-';
    if n < 0 then ['-'] + digits else digits
  }

  /** The number an integer text denotes. */
  function IntValue(s: string): int
    requires IsIntText(s)
  {
    if s[0] == '-' then -(DigitsValue(s[1..]) as int) else DigitsValue(s)
  }

  /** Reading an interpolated `Int` back gives the same number. */
  lemma IntStringRoundTrip(n: int)
    ensures IntValue(IntString(n)) == n
  {
    var m: nat := if n < 0 then -n else n;
    NatStringRoundTrip(m);
    if n < 0 {
      assert IntString(n)[1..] == NatString(m);
    }
  }

  /** The "Cloud @ Sun" text: the truncated percentage followed by "%". */
  function CloudAtSunText(cu: real): (text: string)
    ensures |text| > 0 && text[|text| - 1] == '%'
    ensures text[..|text| - 1] == IntString(Trunc(cu))
  {
    IntString(Trunc(cu)) + "%"
  }

  /** The tile for one optional value: its label when present, "Loading..." when nil. */
  function ValueTile(icon: string, title: string, value: Option<real>, labelled: real -> string): Tile {
    match value
    case None => Tile(icon, title, Loading)
    case Some(v) => Tile(icon, title, labelled(v))
  }

  /** The grid of the card body: always four tiles, in this order. */
  function ConditionTiles(cloudMean: Option<real>, cloudAtSun: Option<real>, humidity: Option<real>,
                          aod: Option<real>): (tiles: seq<Tile>)
    ensures |tiles| == 4
    ensures tiles[0].title == "Clouds (mean)" && tiles[1].title == "Cloud @ Sun"
    ensures tiles[2].title == "Humidity" && tiles[3].title == "AOD"
    ensures tiles[0].text == Loading <==> cloudMean.None?
    ensures tiles[1].text == Loading <==> cloudAtSun.None?
    ensures tiles[2].text == Loading <==> humidity.None?
    ensures tiles[3].text == Loading <==> aod.None?
    ensures cloudMean.Some? ==> tiles[0].text == Content.LabelCloudMean(cloudMean.value)
    ensures cloudAtSun.Some? ==> tiles[1].text == CloudAtSunText(cloudAtSun.value)
    ensures humidity.Some? ==> tiles[2].text == LabelHumidity(humidity.value)
    ensures aod.Some? ==> tiles[3].text == Content.LabelAOD(aod.value)
  {
    [ ValueTile("cloud.fill", "Clouds (mean)", cloudMean, Content.LabelCloudMean),
      ValueTile("cloud.sun.fill", "Cloud @ Sun", cloudAtSun, CloudAtSunText),
      ValueTile("humidity.fill", "Humidity", humidity, LabelHumidity),
      ValueTile("sun.haze.fill", "AOD", aod, Content.LabelAOD) ]
  }
}
