/**
 * Pace formatting, metric branch: a pace in seconds per kilometre shown as
 * `M:SS /km`, with its inverse `ParsePace`. Any unit preference other than
 * "imperial" selects this branch.
 */
module Conversions {
  import opened Wrappers
  import opened Strings

  predicate IsImperial(unitPreference: string) {
    unitPreference == "imperial"
  }

  const MetricSuffix: string := " /km"

  /** The seconds field: a `0` in front of values below ten, then the decimal digits. */
  function PaddedSeconds(sec: nat): (s: string)
    ensures sec < 10 ==> |s| == 2 && s[0] == '0'
    ensures 10 <= sec < 100 ==> |s| == 2 && s[0] != '0'
    ensures AllDigits(s) && DigitsToNat(s) == sec
  {
    DigitsRoundTrip(sec);
    NatToStringDigits(sec);
    NatToStringLength(sec);
    var digits := NatToString(sec);
    if sec < 10 then
      var s := "0" + digits;
      assert s[..|s| - 1] == "0";
      s
    else digits
  }

  /** `M:SS /km` from a minutes and a seconds field. */
  function Render(minutes: nat, sec: nat): string {
    NatToString(minutes) + ":" + PaddedSeconds(sec) + MetricSuffix
  }

  /** A two-digit seconds field sits between the colon and the suffix and reads back as the seconds. */
  lemma RenderShape(minutes: nat, sec: nat)
    requires sec < 100
    ensures var r := Render(minutes, sec);
      && |r| >= 8
      && r[|r| - 4..] == MetricSuffix
      && r[|r| - 7] == ':'
      && AllDigits(r[|r| - 6..|r| - 4]) && DigitsToNat(r[|r| - 6..|r| - 4]) == sec
  {
    NatToStringDigits(minutes);
    var r := Render(minutes, sec);
    assert r[|r| - 6..|r| - 4] == PaddedSeconds(sec);
  }

  /**
   * The metric pace for a whole number of seconds per kilometre. The imperial
   * branch is not part of this model, so the preference must not be "imperial".
   */
  function FormatPace(secondsPerKm: nat, unitPreference: string): (r: string)
    requires !IsImperial(unitPreference)
    ensures |r| >= 8
    ensures r[|r| - 4..] == MetricSuffix
    ensures r[|r| - 7] == ':'
    ensures AllDigits(r[|r| - 6..|r| - 4]) && DigitsToNat(r[|r| - 6..|r| - 4]) == secondsPerKm % 60
  {
    RenderShape(secondsPerKm / 60, secondsPerKm % 60);
    Render(secondsPerKm / 60, secondsPerKm % 60)
  }

  /**
   * Reads `M:SS /km` back as a number of seconds: minutes are one or more digits
   * before the first `:`, seconds exactly two digits below 60, then the suffix.
   */
  function ParsePace(s: string): (r: Option<nat>)
    ensures r.Some? ==> |s| >= 8 && s[|s| - 4..] == MetricSuffix
  {
    var colon := IndexOf(s, ':', 0);
    if colon.None? || |s| != colon.value + 7 || s[|s| - 4..] != MetricSuffix then None
    else
      var minutes := s[..colon.value];
      var seconds := s[colon.value + 1..colon.value + 3];
      if |minutes| == 0 || !AllDigits(minutes) || !AllDigits(seconds) then None
      else if DigitsToNat(seconds) >= 60 then None
      else Some(DigitsToNat(minutes) * 60 + DigitsToNat(seconds))
  }

  /** `ParsePace` on a string whose colon, digit fields and suffix sit where a rendered pace has them. */
  lemma ParseFields(s: string, colon: nat, minutes: nat, sec: nat)
    requires IndexOf(s, ':', 0) == Some(colon)
    requires |s| == colon + 7 && s[|s| - 4..] == MetricSuffix
    requires |s[..colon]| > 0 && AllDigits(s[..colon]) && DigitsToNat(s[..colon]) == minutes
    requires AllDigits(s[colon + 1..colon + 3]) && DigitsToNat(s[colon + 1..colon + 3]) == sec
    ensures ParsePace(s) == if sec < 60 then Some(minutes * 60 + sec) else None
  {
  }

  /** Parsing a rendered pace gives back the total seconds, or nothing when the seconds field is 60 or more. */
  lemma ParseRendered(minutes: nat, sec: nat)
    requires sec < 100
    ensures ParsePace(Render(minutes, sec)) == if sec < 60 then Some(minutes * 60 + sec) else None
  {
    var digits := NatToString(minutes);
    var tail := PaddedSeconds(sec) + MetricSuffix;
    var r := Render(minutes, sec);
    assert r == "" + digits + [':'] + tail;
    NatToStringDigits(minutes);
    DigitsRoundTrip(minutes);
    SeparatorAfterDigits("", digits, ':', tail);
    SlicesAroundSeparator("", digits, ':', tail);
    assert r[|digits| + 1..|digits| + 3] == PaddedSeconds(sec);
    ParseFields(r, |digits|, minutes, sec);
  }

  /** Formatting then parsing gives back the number of seconds. */
  lemma FormatPaceRoundTrip(secondsPerKm: nat, unitPreference: string)
    requires !IsImperial(unitPreference)
    ensures ParsePace(FormatPace(secondsPerKm, unitPreference)) == Some(secondsPerKm)
  {
    ParseRendered(secondsPerKm / 60, secondsPerKm % 60);
  }

  /** Every preference other than "imperial" formats exactly as "metric" does. */
  lemma NonImperialIsMetric(secondsPerKm: nat, unitPreference: string)
    requires !IsImperial(unitPreference)
    ensures FormatPace(secondsPerKm, unitPreference) == FormatPace(secondsPerKm, "metric")
  {
  }

  lemma RenderExamples()
    ensures Render(5, 0) == "5:00 /km"
    ensures Render(1, 5) == "1:05 /km"
  {
    assert PaddedSeconds(0) == "00" && PaddedSeconds(5) == "05";
  }

  /** Five minutes per kilometre reads "5:00 /km", and 65 seconds reads "1:05 /km". */
  lemma FormatPaceExamples()
    ensures FormatPace(300, "metric") == "5:00 /km"
    ensures FormatPace(65, "metric") == "1:05 /km"
  {
    RenderExamples();
    assert FormatPace(300, "metric") == Render(5, 0);
    assert FormatPace(65, "metric") == Render(1, 5);
  }

  // ---------------------------------------------------------------------------
  // Fractional seconds
  // ---------------------------------------------------------------------------

  /** JavaScript's `Math.round` on a non-negative number: halves round up. */
  function Round(x: real): (n: nat)
    requires x >= 0.0
    ensures n as real - 0.5 <= x < n as real + 0.5
  {
    (x + 0.5).Floor
  }

  /** The minutes field as written: the pace floored to whole minutes. */
  function MinutesField(secondsPerKm: real): (minutes: nat)
    requires secondsPerKm >= 0.0
    ensures 60.0 * minutes as real <= secondsPerKm < 60.0 * (minutes + 1) as real
  {
    var q := secondsPerKm / 60.0;
    assert q.Floor as real <= q < q.Floor as real + 1.0;
    q.Floor
  }

  /**
   * The seconds field as written: the remainder below a minute, rounded on its
   * own. It can reach 60; below 60 the two fields add up to the rounded pace.
   */
  function SecondsFieldAsWritten(secondsPerKm: real): (sec: nat)
    requires secondsPerKm >= 0.0
    ensures sec <= 60
    ensures sec < 60 ==> MinutesField(secondsPerKm) * 60 + sec == Round(secondsPerKm)
  {
    var minutes := MinutesField(secondsPerKm);
    var sec := Round(secondsPerKm - 60.0 * minutes as real);
    var n := minutes * 60 + sec;
    assert n as real - 0.5 <= secondsPerKm < n as real + 0.5;
    var m := Round(secondsPerKm);
    assert m as real - 0.5 <= secondsPerKm < m as real + 0.5;
    sec
  }

  /**
   * The metric branch as written, on a fractional pace: minutes are floored,
   * and the remainder below a minute is rounded on its own, so the seconds
   * field can read 60, which is not a pace `ParsePace` accepts.
   */
  function FormatPaceAsWritten(secondsPerKm: real): (r: string)
    requires secondsPerKm >= 0.0
    ensures |r| >= 8 && r[|r| - 4..] == MetricSuffix && r[|r| - 7] == ':'
    ensures AllDigits(r[|r| - 6..|r| - 4]) && DigitsToNat(r[|r| - 6..|r| - 4]) <= 60
    ensures DigitsToNat(r[|r| - 6..|r| - 4]) < 60 ==> ParsePace(r) == Some(Round(secondsPerKm))
    ensures DigitsToNat(r[|r| - 6..|r| - 4]) == 60 ==> ParsePace(r).None?
  {
    var minutes := MinutesField(secondsPerKm);
    var sec := SecondsFieldAsWritten(secondsPerKm);
    RenderShape(minutes, sec);
    ParseRendered(minutes, sec);
    Render(minutes, sec)
  }

  /** The as-written rendering of 359.5 seconds shows 60 seconds, which `ParsePace` refuses. */
  lemma AsWrittenShowsSixtySeconds()
    ensures FormatPaceAsWritten(359.5) == "5:60 /km"
    ensures ParsePace(FormatPaceAsWritten(359.5)).None?
  {
    assert MinutesField(359.5) == 5;
    assert SecondsFieldAsWritten(359.5) == 60;
    var s := "5:60 /km";
    assert Render(5, 60) == s;
    assert IndexOf(s, ':', 0) == Some(1);
    assert s[2..4] == "60";
  }

  /** Corrected rendering: round the whole pace to seconds first, then split into minutes and seconds. */
  function FormatPaceRounded(secondsPerKm: real): (r: string)
    requires secondsPerKm >= 0.0
    ensures ParsePace(r) == Some(Round(secondsPerKm))
    ensures DigitsToNat(r[|r| - 6..|r| - 4]) < 60
  {
    FormatPaceRoundTrip(Round(secondsPerKm), "metric");
    FormatPace(Round(secondsPerKm), "metric")
  }

  /** On a whole number of seconds, flooring and rounding give back the integer minutes and seconds. */
  lemma WholeSecondsFields(secondsPerKm: nat)
    ensures var x := secondsPerKm as real;
      && MinutesField(x) == secondsPerKm / 60
      && SecondsFieldAsWritten(x) == secondsPerKm % 60
      && Round(x) == secondsPerKm
  {
    var x := secondsPerKm as real;
    var m := secondsPerKm / 60;
    assert x == 60.0 * m as real + (secondsPerKm % 60) as real;
    assert MinutesField(x) == m;
  }

  /** On whole seconds the as-written rendering splits into the integer minutes and seconds. */
  lemma AsWrittenOnWholeSeconds(secondsPerKm: nat)
    ensures FormatPaceAsWritten(secondsPerKm as real) == Render(secondsPerKm / 60, secondsPerKm % 60)
  {
    WholeSecondsFields(secondsPerKm);
  }

  /** On whole seconds the corrected rendering is the whole-second `FormatPace`. */
  lemma RoundedOnWholeSeconds(secondsPerKm: nat)
    ensures FormatPaceRounded(secondsPerKm as real) == FormatPace(secondsPerKm, "metric")
  {
    WholeSecondsFields(secondsPerKm);
  }

  /** On whole seconds the corrected and the as-written rendering agree. */
  lemma RoundedAgreesOnWholeSeconds(secondsPerKm: nat)
    ensures FormatPaceRounded(secondsPerKm as real) == FormatPaceAsWritten(secondsPerKm as real)
  {
    AsWrittenOnWholeSeconds(secondsPerKm);
    RoundedOnWholeSeconds(secondsPerKm);
  }
}
