/**
 * Matching a sunset timestamp "yyyy-MM-ddTHH:mm" against hourly timestamps, as done by
 * `indexFor` in the views and by `findClosestTimeIndex` in Services/AirQualityService.swift.
 * The Swift string operations they use are modelled here: `split(separator:)` (which drops
 * empty pieces), `hasPrefix` and `firstIndex(where:)`.
 */
module Alignment {
  import opened Wrappers

  /** `s.hasPrefix(p)`. */
  predicate HasPrefix(s: string, p: string) {
    p <= s
  }

  /** Length of the leading run of `s` that contains no `sep`. */
  function RunLength(s: string, sep: char): (n: nat)
    ensures n <= |s|
    ensures forall k :: 0 <= k < n ==> s[k] != sep
    ensures n < |s| ==> s[n] == sep
  {
    if s == [] || s[0] == sep then 0 else 1 + RunLength(s[1..], sep)
  }

  /**
   * Swift `s.split(separator: sep)`: the maximal runs of `s` free of `sep`, in order;
   * empty pieces (between adjacent separators or at either end) are dropped.
   */
  function SplitOn(s: string, sep: char): (parts: seq<string>)
    ensures forall k :: 0 <= k < |parts| ==> parts[k] != [] && sep !in parts[k]
    decreases |s|
  {
    if s == [] then []
    else if s[0] == sep then SplitOn(s[1..], sep)
    else
      var n := RunLength(s, sep);
      [s[..n]] + SplitOn(s[n..], sep)
  }

  /** The pieces laid end to end. */
  function Concat(parts: seq<string>): string {
    if parts == [] then [] else parts[0] + Concat(parts[1..])
  }

  /** `s` with every `c` deleted. */
  function Without(s: string, c: char): string {
    if s == [] then [] else (if s[0] == c then [] else [s[0]]) + Without(s[1..], c)
  }

  lemma {:induction false} WithoutAppend(a: string, b: string, c: char)
    ensures Without(a + b, c) == Without(a, c) + Without(b, c)
  {
    if a != [] {
      assert (a + b)[1..] == a[1..] + b;
      WithoutAppend(a[1..], b, c);
    } else {
      assert a + b == b;
    }
  }

  lemma {:induction false} WithoutAbsent(a: string, c: char)
    requires c !in a
    ensures Without(a, c) == a
  {
    if a != [] {
      WithoutAbsent(a[1..], c);
    }
  }

  /** Splitting loses exactly the separators: the pieces, joined, are `s` without its `sep` characters. */
  lemma {:induction false} SplitOnLosesOnlySeparators(s: string, sep: char)
    ensures Concat(SplitOn(s, sep)) == Without(s, sep)
    decreases |s|
  {
    if s == [] {
    } else if s[0] == sep {
      SplitOnLosesOnlySeparators(s[1..], sep);
    } else {
      var n := RunLength(s, sep);
      var parts := SplitOn(s, sep);
      assert parts == [s[..n]] + SplitOn(s[n..], sep);
      assert parts[1..] == SplitOn(s[n..], sep);
      SplitOnLosesOnlySeparators(s[n..], sep);
      assert s == s[..n] + s[n..];
      WithoutAppend(s[..n], s[n..], sep);
      WithoutAbsent(s[..n], sep);
    }
  }

  /** A non-empty run free of `sep`, then `sep`: the run is the first piece. */
  lemma SplitOnRun(a: string, b: string, sep: char)
    requires a != [] && sep !in a
    ensures SplitOn(a + [sep] + b, sep) == [a] + SplitOn(b, sep)
  {
    var s := a + [sep] + b;
    var n := RunLength(s, sep);
    assert s[|a|] == sep;
    assert forall k :: 0 <= k < |a| ==> s[k] == a[k];
    assert n == |a|;
    assert s[..n] == a;
    assert s[n..] == [sep] + b;
    assert ([sep] + b)[1..] == b;
  }

  /** A non-empty text free of `sep` is a single piece. */
  lemma SplitOnFree(a: string, sep: char)
    requires a != [] && sep !in a
    ensures SplitOn(a, sep) == [a]
  {
    var n := RunLength(a, sep);
    assert n == |a|;
    assert a[..n] == a;
    assert a[n..] == [];
  }

  /** A text without `sep` never splits into more than one piece. */
  lemma SplitOnAbsent(s: string, sep: char)
    requires sep !in s
    ensures |SplitOn(s, sep)| <= 1
  {
    if s != [] {
      SplitOnFree(s, sep);
    }
  }

  /** The date piece of a timestamp: defined when the timestamp splits on 'T' into exactly two pieces. */
  function DatePart(isoSun: string): (date: Option<string>)
    ensures date.Some? <==> |SplitOn(isoSun, 'T')| == 2
    ensures date.Some? ==> date.value != [] && 'T' !in date.value
  {
    var parts := SplitOn(isoSun, 'T');
    if |parts| == 2 then Some(parts[0]) else None
  }

  /**
   * The lookup key "<date>T<hour>:" that every copy of `indexFor` and `findClosestTimeIndex` builds,
   * or None when the timestamp does not split on 'T' into exactly two pieces. When the time piece
   * is made only of ':' the source indexes an empty array and traps (see HourPieceAsWritten);
   * the model answers None there instead.
   */
  function HourLookupKey(isoSun: string): (key: Option<string>)
    ensures key.Some? ==> DatePart(isoSun).Some?
    ensures key.Some? ==> DatePart(isoSun).value + "T" <= key.value
    ensures key.Some? ==> |key.value| > |DatePart(isoSun).value| + 1 && key.value[|key.value| - 1] == ':'
    ensures DatePart(isoSun).None? ==> key.None?
  {
    var parts := SplitOn(isoSun, 'T');
    if |parts| != 2 then None
    else
      var hourPieces := SplitOn(parts[1], ':');
      if hourPieces == [] then None
      else Some(parts[0] + "T" + hourPieces[0] + ":")
  }

  /** On a well-formed "date T hour : minutes" timestamp the key is "date T hour :". */
  lemma LookupKeyOfTimestamp(date: string, hour: string, minutes: string)
    requires date != [] && 'T' !in date
    requires hour != [] && 'T' !in hour && ':' !in hour
    requires 'T' !in minutes
    ensures DatePart(date + "T" + hour + ":" + minutes) == Some(date)
    ensures HourLookupKey(date + "T" + hour + ":" + minutes) == Some(date + "T" + hour + ":")
  {
    var rest := hour + [':'] + minutes;
    assert date + "T" + hour + ":" + minutes == date + ['T'] + rest;
    assert 'T' !in rest by {
      assert forall k :: 0 <= k < |rest| ==> rest[k] == (if k < |hour| then hour[k] else if k == |hour| then ':' else minutes[k - |hour| - 1]);
    }
    assert SplitOn(date + ['T'] + rest, 'T') == [date, rest] by {
      SplitOnRun(date, rest, 'T');
      SplitOnFree(rest, 'T');
    }
    assert SplitOn(rest, ':') == [hour] + SplitOn(minutes, ':') by {
      SplitOnRun(hour, minutes, ':');
    }
  }

  /** Without a 'T' there is no key, so "19:00" alone never matches. */
  lemma NoKeyWithoutSeparator(isoSun: string)
    requires 'T' !in isoSun
    ensures DatePart(isoSun).None? && HourLookupKey(isoSun).None?
  {
    SplitOnAbsent(isoSun, 'T');
  }

  /** "T19:00" splits into the single piece "19:00" (the empty piece before 'T' is dropped): no key. */
  lemma LeadingSeparatorGivesNoKey()
    ensures SplitOn("T19:00", 'T') == ["19:00"]
    ensures HourLookupKey("T19:00").None?
  {
    assert "T19:00"[1..] == "19:00";
    SplitOnFree("19:00", 'T');
  }

  /** `parts[1].split(separator: ":")[0]` exactly as written: it needs a non-empty split or it traps. */
  function HourPieceAsWritten(timePiece: string): (hour: string)
    requires SplitOn(timePiece, ':') != []
    ensures hour != [] && ':' !in hour && hour <= Without(timePiece, ':')
  {
    var pieces := SplitOn(timePiece, ':');
    SplitOnLosesOnlySeparators(timePiece, ':');
    assert Concat(pieces) == pieces[0] + Concat(pieces[1..]);
    pieces[0]
  }

  /**
   * "2025-04-26T:" passes the `parts.count == 2` guard, yet its time piece ":" splits into no
   * pieces at all, so HourPieceAsWritten's requirement fails and the source's `[0]` traps.
   */
  lemma ColonOnlyTimePieceTraps()
    ensures SplitOn("2025-04-26T:", 'T') == ["2025-04-26", ":"]
    ensures SplitOn(":", ':') == []
    ensures HourLookupKey("2025-04-26T:").None?
  {
    assert "2025-04-26T:" == "2025-04-26" + ['T'] + ":";
    SplitOnRun("2025-04-26", ":", 'T');
    SplitOnFree(":", 'T');
    assert ":"[1..] == [];
  }

  /** `i` is the first index of `hours` whose entry starts with `p`. */
  predicate IsFirstWithPrefix(p: string, hours: seq<string>, i: nat) {
    i < |hours| && HasPrefix(hours[i], p) && forall j :: 0 <= j < i ==> !HasPrefix(hours[j], p)
  }

  /** No entry of `hours` starts with `p`. */
  predicate NoneWithPrefix(p: string, hours: seq<string>) {
    forall j :: 0 <= j < |hours| ==> !HasPrefix(hours[j], p)
  }

  /** `hours.firstIndex { $0.hasPrefix(p) }`. */
  function FirstIndexWithPrefix(p: string, hours: seq<string>): (r: Option<nat>)
    ensures r.None? <==> NoneWithPrefix(p, hours)
    ensures r.Some? ==> IsFirstWithPrefix(p, hours, r.value)
  {
    if hours == [] then None
    else if HasPrefix(hours[0], p) then Some(0)
    else
      match FirstIndexWithPrefix(p, hours[1..])
      case None => None
      case Some(k) => Some(k + 1)
  }

  /** What every copy of `indexFor` promises: the first entry of the key's hour, or None. */
  predicate IsExactHourResult(isoSun: string, hours: seq<string>, r: Option<nat>) {
    match HourLookupKey(isoSun)
    case None => r.None?
    case Some(key) =>
      match r
      case None => NoneWithPrefix(key, hours)
      case Some(i) => IsFirstWithPrefix(key, hours, i)
  }

  /** At most one answer meets that promise, so all copies of `indexFor` agree. */
  lemma ExactHourResultUnique(isoSun: string, hours: seq<string>, r1: Option<nat>, r2: Option<nat>)
    requires IsExactHourResult(isoSun, hours, r1) && IsExactHourResult(isoSun, hours, r2)
    ensures r1 == r2
  {
  }

  /**
   * `indexFor`, of which Views/HomeView.swift, Views/LocationPreview.swift, Views/ContentView.swift
   * and Views/FavoritesView.swift each hold an identical copy: the first hourly entry of the
   * sunset's hour, or None.
   */
  function IndexFor(isoSun: string, hours: seq<string>): (r: Option<nat>)
    ensures IsExactHourResult(isoSun, hours, r)
    ensures r.Some? ==> r.value < |hours|
  {
    match HourLookupKey(isoSun)
    case None => None
    case Some(key) => FirstIndexWithPrefix(key, hours)
  }
}
