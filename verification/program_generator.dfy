/**
 * The training-program generator: from a plan length in weeks, a number of
 * training days per week and a start date, an ordered list of weeks, each of
 * seven Monday-first days that are either a Run taken from a five-entry
 * rotation or a Rest.
 *
 * Dates are whole day numbers: the day `k` days after `start` is `start + k`.
 */
module ProgramGenerator {
  import opened Wrappers
  import opened Strings

  datatype Kind = Run | Rest

  /** The status vocabulary shared by days (Pending, Complete) and weeks (Active, Locked, Complete). */
  datatype Status = Pending | Complete | Active | Locked

  datatype Phase = Base | Build | Peak

  datatype Workout = Workout(title: string, duration: string)

  datatype Day = Day(
    id: string,
    weekday: string,
    date: int,
    kind: Kind,
    title: string,
    duration: string,
    status: Status,
    proofImage: Option<string>)

  datatype Week = Week(weekId: int, title: string, phase: Phase, status: Status, days: seq<Day>)

  type Program = seq<Week>

  /** The rotation of run templates. */
  const WorkoutTypes: seq<Workout> := [
    Workout("Aerobic Base", "45 min"),
    Workout("Tempo Run", "30 min"),
    Workout("Intervals", "40 min"),
    Workout("Recovery Run", "25 min"),
    Workout("Long Run", "60 min")
  ]

  const Weekdays: seq<string> := ["Mon", "Tue", "Wed", "Thu", "Fri", "Sat", "Sun"]

  const RestTitle: string := "Rest & Recovery"
  const RestDuration: string := "0 min"

  // ---------------------------------------------------------------------------
  // The generator
  // ---------------------------------------------------------------------------

  /** The phase rule as the loop states it, on real numbers: start at Base, move to Build past a third, then to Peak past two thirds. */
  function PhaseByRealDivision(w: int, durationWeeks: int): Phase {
    var afterFirstTest := if w as real > durationWeeks as real / 3.0 then Build else Base;
    if w as real > (durationWeeks * 2) as real / 3.0 then Peak else afterFirstTest
  }

  /**
   * Phase of week `w` in a plan of `durationWeeks` weeks, in integers: the
   * comparisons `w > D/3` and `w > 2D/3` on reals are `3w > D` and `3w > 2D`,
   * and the Peak test, applied last, wins.
   */
  function PhaseOf(w: int, durationWeeks: int): (phase: Phase)
    ensures phase == PhaseByRealDivision(w, durationWeeks)
  {
    if 3 * w > 2 * durationWeeks then Peak
    else if 3 * w > durationWeeks then Build
    else Base
  }

  /** Days between the start date and day `d` of week `w` (both 1-based). */
  function DayOffset(w: int, d: int): int {
    (w - 1) * 7 + (d - 1)
  }

  /** The identifier `w{w}d{d}`. */
  function DayId(w: nat, d: nat): string {
    "w" + NatToString(w) + "d" + NatToString(d)
  }

  function WeekTitle(w: nat): string {
    "Week " + NatToString(w)
  }

  /** The greedy rule: rest once the week's runs are used up, on Monday, and on Friday for plans under six days. */
  function IsRestDay(runCount: int, d: int, daysPerWeek: int): (rest: bool)
    ensures rest <==> runCount >= daysPerWeek || !Eligible(d, daysPerWeek)
  {
    runCount >= daysPerWeek || d == 1 || (d == 5 && daysPerWeek < 6)
  }

  function Template(w: nat, d: nat): Workout {
    WorkoutTypes[(w + d) % |WorkoutTypes|]
  }

  /**
   * Day `d` of week `w`: a rest day (Complete) or a run day (Pending) whose
   * title and duration come from the rotation.
   */
  function MakeDay(w: nat, d: nat, start: int, rest: bool): Day
    requires 1 <= d <= 7
  {
    var kind := if rest then Rest else Run;
    var workout := if rest then Workout(RestTitle, RestDuration) else Template(w, d);
    var status := if rest then Complete else Pending;
    Day(DayId(w, d), Weekdays[d - 1], start + DayOffset(w, d), kind, workout.title, workout.duration, status, None)
  }

  /** The inner loop over days `d..7` of week `w`, with `runCount` runs already placed this week. */
  function GenDays(w: nat, d: nat, runCount: int, daysPerWeek: int, start: int): (days: seq<Day>)
    requires 1 <= d <= 8
    ensures |days| == 8 - d
    ensures CountDays(days, IsRun) <= if daysPerWeek > runCount then daysPerWeek - runCount else 0
    decreases 8 - d
  {
    if d == 8 then []
    else
      var rest := IsRestDay(runCount, d, daysPerWeek);
      [MakeDay(w, d, start, rest)] + GenDays(w, d + 1, if rest then runCount else runCount + 1, daysPerWeek, start)
  }

  function GenWeek(w: nat, durationWeeks: int, daysPerWeek: int, start: int): Week {
    Week(w, WeekTitle(w), PhaseOf(w, durationWeeks), Active, GenDays(w, 1, 0, daysPerWeek, start))
  }

  /**
   * The program for a plan of `durationWeeks` weeks with `daysPerWeek`
   * training days, starting on day `start`.
   */
  function GenerateProgram(durationWeeks: int, daysPerWeek: int, start: int): (p: Program)
    ensures |p| == if durationWeeks > 0 then durationWeeks else 0
    ensures forall i :: 0 <= i < |p| ==>
      && p[i].weekId == i + 1
      && p[i].title == WeekTitle(i + 1)
      && p[i].phase == PhaseOf(i + 1, durationWeeks)
      && p[i].status == Active
      && |p[i].days| == 7
  {
    var n := if durationWeeks > 0 then durationWeeks else 0;
    seq(n, i requires 0 <= i < n => GenWeek(i + 1, durationWeeks, daysPerWeek, start))
  }

  // ---------------------------------------------------------------------------
  // Counting and flattening
  // ---------------------------------------------------------------------------

  predicate IsRun(day: Day) {
    day.kind == Run
  }

  predicate IsRest(day: Day) {
    day.kind == Rest
  }

  /** How many days of `s` satisfy `P`. */
  function CountDays(s: seq<Day>, P: Day -> bool): nat {
    if |s| == 0 then 0 else (if P(s[0]) then 1 else 0) + CountDays(s[1..], P)
  }

  lemma {:induction false} CountDaysAppend(a: seq<Day>, b: seq<Day>, P: Day -> bool)
    ensures CountDays(a + b, P) == CountDays(a, P) + CountDays(b, P)
    decreases |a|
  {
    if |a| > 0 {
      assert (a + b)[0] == a[0];
      assert (a + b)[1..] == a[1..] + b;
      CountDaysAppend(a[1..], b, P);
    } else {
      assert a + b == b;
    }
  }

  /** The count is the number of positions whose day satisfies `P`. */
  lemma {:induction false} CountDaysIsCardinality(s: seq<Day>, P: Day -> bool)
    ensures CountDays(s, P) == |set k | 0 <= k < |s| && P(s[k])|
    decreases |s|
  {
    if |s| > 0 {
      var n := |s| - 1;
      var init := s[..n];
      assert s == init + [s[n]];
      CountDaysAppend(init, [s[n]], P);
      CountDaysIsCardinality(init, P);
      var before := set k | 0 <= k < |init| && P(init[k]);
      var all := set k | 0 <= k < |s| && P(s[k]);
      if P(s[n]) {
        assert all == before + {n};
      } else {
        assert all == before;
      }
    }
  }

  /** Rest days and run days together are all days. */
  lemma {:induction false} RestAndRunPartition(s: seq<Day>)
    ensures CountDays(s, IsRest) + CountDays(s, IsRun) == |s|
    decreases |s|
  {
    if |s| > 0 {
      RestAndRunPartition(s[1..]);
    }
  }

  /** Every day of the program in week order. */
  function AllDays(p: Program): seq<Day> {
    if |p| == 0 then [] else p[0].days + AllDays(p[1..])
  }

  /** When every week has seven days, position `k` of the flattened days is day `k % 7` of week `k / 7`. */
  lemma {:induction false} AllDaysIndex(p: Program)
    requires forall i :: 0 <= i < |p| ==> |p[i].days| == 7
    ensures |AllDays(p)| == 7 * |p|
    ensures forall k :: 0 <= k < |AllDays(p)| ==> AllDays(p)[k] == p[k / 7].days[k % 7]
    decreases |p|
  {
    if |p| > 0 {
      AllDaysIndex(p[1..]);
      var rest := AllDays(p[1..]);
      forall k | 0 <= k < |AllDays(p)|
        ensures AllDays(p)[k] == p[k / 7].days[k % 7]
      {
        if k >= 7 {
          assert AllDays(p)[k] == rest[k - 7];
          assert (k - 7) / 7 == k / 7 - 1 && (k - 7) % 7 == k % 7;
        }
      }
    }
  }

  // ---------------------------------------------------------------------------
  // Closed form of the rest/run rule
  // ---------------------------------------------------------------------------

  /** A day may carry a run: never Monday, and Friday only for plans of six or more days. */
  predicate Eligible(d: int, daysPerWeek: int) {
    d != 1 && !(d == 5 && daysPerWeek < 6)
  }

  /**
   * How many of the days `1..d-1` are eligible, for `1 <= d <= 8`
   * (`EligibleBeforeIsCount` shows it is that count).
   */
  function EligibleBefore(d: int, daysPerWeek: int): nat {
    if d <= 2 then 0 else if d <= 5 then d - 2 else if daysPerWeek < 6 then d - 3 else d - 2
  }

  /** `EligibleBefore` starts at zero and goes up by one exactly past each eligible day. */
  lemma EligibleBeforeIsCount(d: int, daysPerWeek: int)
    requires 1 <= d <= 7
    ensures EligibleBefore(1, daysPerWeek) == 0
    ensures EligibleBefore(d + 1, daysPerWeek) == EligibleBefore(d, daysPerWeek) + (if Eligible(d, daysPerWeek) then 1 else 0)
  {
  }

  /** Runs go to the earliest eligible days, as many as `daysPerWeek` allows. */
  predicate IsRunSlot(d: int, daysPerWeek: int) {
    Eligible(d, daysPerWeek) && EligibleBefore(d, daysPerWeek) < daysPerWeek
  }

  /** Runs placed before day `d` under the closed form. */
  function RunsBefore(d: int, daysPerWeek: int): int {
    var e := EligibleBefore(d, daysPerWeek);
    var cap := if daysPerWeek > 0 then daysPerWeek else 0;
    if e < cap then e else cap
  }

  /** One step of the inner loop agrees with the closed form and keeps `runCount` equal to `RunsBefore`. */
  lemma GreedyStep(d: int, runCount: int, daysPerWeek: int)
    requires 1 <= d <= 7
    requires runCount == RunsBefore(d, daysPerWeek)
    ensures IsRestDay(runCount, d, daysPerWeek) == !IsRunSlot(d, daysPerWeek)
    ensures (if IsRestDay(runCount, d, daysPerWeek) then runCount else runCount + 1) == RunsBefore(d + 1, daysPerWeek)
  {
    EligibleBeforeIsCount(d, daysPerWeek);
  }

  /** Days `d..7` of week `w` under the closed form. */
  function ClosedDays(w: nat, d: nat, daysPerWeek: int, start: int): (days: seq<Day>)
    requires 1 <= d <= 8
    ensures |days| == 8 - d
    decreases 8 - d
  {
    if d == 8 then [] else [MakeDay(w, d, start, !IsRunSlot(d, daysPerWeek))] + ClosedDays(w, d + 1, daysPerWeek, start)
  }

  /** The inner loop, started with the closed form's run count, emits the closed-form days. */
  lemma {:induction false} GenDaysClosedForm(w: nat, d: nat, runCount: int, daysPerWeek: int, start: int)
    requires 1 <= d <= 8
    requires runCount == RunsBefore(d, daysPerWeek)
    ensures GenDays(w, d, runCount, daysPerWeek, start) == ClosedDays(w, d, daysPerWeek, start)
    decreases 8 - d
  {
    if d < 8 {
      GreedyStep(d, runCount, daysPerWeek);
      var next := if IsRestDay(runCount, d, daysPerWeek) then runCount else runCount + 1;
      GenDaysClosedForm(w, d + 1, next, daysPerWeek, start);
    }
  }

  lemma {:induction false} ClosedDaysIndex(w: nat, d: nat, daysPerWeek: int, start: int, j: nat)
    requires 1 <= d <= j <= 7
    ensures ClosedDays(w, d, daysPerWeek, start)[j - d] == MakeDay(w, j, start, !IsRunSlot(j, daysPerWeek))
    decreases j - d
  {
    if d < j {
      ClosedDaysIndex(w, d + 1, daysPerWeek, start, j);
    }
  }

  /** The closed form from day `d` holds `RunsBefore(8) - RunsBefore(d)` runs. */
  lemma {:induction false} ClosedDaysRunCount(w: nat, d: nat, daysPerWeek: int, start: int)
    requires 1 <= d <= 8
    ensures CountDays(ClosedDays(w, d, daysPerWeek, start), IsRun) == RunsBefore(8, daysPerWeek) - RunsBefore(d, daysPerWeek)
    decreases 8 - d
  {
    if d < 8 {
      EligibleBeforeIsCount(d, daysPerWeek);
      ClosedDaysRunCount(w, d + 1, daysPerWeek, start);
      var days := ClosedDays(w, d, daysPerWeek, start);
      assert days[1..] == ClosedDays(w, d + 1, daysPerWeek, start);
    }
  }

  // ---------------------------------------------------------------------------
  // Properties of generated programs
  // ---------------------------------------------------------------------------

  /** Week `i` (0-based) of a generated program holds the closed-form days. */
  lemma GeneratedWeekDays(durationWeeks: int, daysPerWeek: int, start: int, i: nat)
    requires i < |GenerateProgram(durationWeeks, daysPerWeek, start)|
    ensures GenerateProgram(durationWeeks, daysPerWeek, start)[i].days == ClosedDays(i + 1, 1, daysPerWeek, start)
  {
    assert GenerateProgram(durationWeeks, daysPerWeek, start)[i] == GenWeek(i + 1, durationWeeks, daysPerWeek, start);
    GenDaysClosedForm(i + 1, 1, 0, daysPerWeek, start);
  }

  /** Day `j` of week `i` (both 0-based) of a generated program is the closed-form day. */
  lemma GeneratedDay(durationWeeks: int, daysPerWeek: int, start: int, i: nat, j: nat)
    requires i < |GenerateProgram(durationWeeks, daysPerWeek, start)| && j < 7
    ensures GenerateProgram(durationWeeks, daysPerWeek, start)[i].days[j]
      == MakeDay(i + 1, j + 1, start, !IsRunSlot(j + 1, daysPerWeek))
  {
    GeneratedWeekDays(durationWeeks, daysPerWeek, start, i);
    ClosedDaysIndex(i + 1, 1, daysPerWeek, start, j + 1);
    assert j == (j + 1) - 1;
  }

  /** The id, weekday label and date of day `j` of week `i` (both 0-based). */
  lemma GeneratedDayLabel(durationWeeks: int, daysPerWeek: int, start: int, i: int, j: int)
    requires 0 <= i < |GenerateProgram(durationWeeks, daysPerWeek, start)| && 0 <= j < 7
    ensures var day := GenerateProgram(durationWeeks, daysPerWeek, start)[i].days[j];
      && day.id == DayId(i + 1, j + 1)
      && day.weekday == Weekdays[j]
      && day.date == start + 7 * i + j
  {
    GeneratedDay(durationWeeks, daysPerWeek, start, i, j);
  }

  /** Every week of `p` has seven days and each is the closed-form day for its position. */
  predicate ClosedFormProgram(p: Program, daysPerWeek: int, start: int) {
    && (forall i :: 0 <= i < |p| ==> |p[i].days| == 7)
    && (forall i, j :: 0 <= i < |p| && 0 <= j < 7 ==>
          p[i].days[j] == MakeDay(i + 1, j + 1, start, !IsRunSlot(j + 1, daysPerWeek)))
  }

  /** Every generated day is the closed-form day for its week and weekday. */
  lemma GeneratedDayClosedForm(durationWeeks: int, daysPerWeek: int, start: int)
    ensures ClosedFormProgram(GenerateProgram(durationWeeks, daysPerWeek, start), daysPerWeek, start)
  {
    var p := GenerateProgram(durationWeeks, daysPerWeek, start);
    forall i, j | 0 <= i < |p| && 0 <= j < 7
      ensures p[i].days[j] == MakeDay(i + 1, j + 1, start, !IsRunSlot(j + 1, daysPerWeek))
    {
      GeneratedDay(durationWeeks, daysPerWeek, start, i, j);
    }
  }

  /** In a closed-form program day `j` of week `i` has id `w{i+1}d{j+1}`, label `Weekdays[j]` and date `start + 7i + j`. */
  lemma ClosedFormLabels(p: Program, daysPerWeek: int, start: int)
    requires ClosedFormProgram(p, daysPerWeek, start)
    ensures forall i, j :: 0 <= i < |p| && 0 <= j < |p[i].days| ==>
      && j < 7
      && p[i].days[j].id == DayId(i + 1, j + 1)
      && p[i].days[j].weekday == Weekdays[j]
      && p[i].days[j].date == start + 7 * i + j
  {
    forall i, j | 0 <= i < |p| && 0 <= j < |p[i].days|
      ensures && j < 7
              && p[i].days[j].id == DayId(i + 1, j + 1)
              && p[i].days[j].weekday == Weekdays[j]
              && p[i].days[j].date == start + 7 * i + j
    {
      assert j < 7 && p[i].days[j] == MakeDay(i + 1, j + 1, start, !IsRunSlot(j + 1, daysPerWeek));
    }
  }

  /** Day `j` of week `i` has id `w{i+1}d{j+1}`, the weekday label `Weekdays[j]` and date `start + 7i + j`. */
  lemma GeneratedDayLabels(durationWeeks: int, daysPerWeek: int, start: int)
    ensures var p := GenerateProgram(durationWeeks, daysPerWeek, start);
      forall i, j :: 0 <= i < |p| && 0 <= j < |p[i].days| ==>
        && j < 7
        && p[i].days[j].id == DayId(i + 1, j + 1)
        && p[i].days[j].weekday == Weekdays[j]
        && p[i].days[j].date == start + 7 * i + j
  {
    GeneratedDayClosedForm(durationWeeks, daysPerWeek, start);
    ClosedFormLabels(GenerateProgram(durationWeeks, daysPerWeek, start), daysPerWeek, start);
  }

  /** A day id determines its week and weekday numbers. */
  lemma DayIdInjective(w: nat, d: nat, w': nat, d': nat)
    requires DayId(w, d) == DayId(w', d')
    ensures w == w' && d == d'
  {
    NatToStringDigits(w);
    NatToStringDigits(w');
    SeparatorAfterDigits("w", NatToString(w), 'd', NatToString(d));
    SeparatorAfterDigits("w", NatToString(w'), 'd', NatToString(d'));
    SlicesAroundSeparator("w", NatToString(w), 'd', NatToString(d));
    SlicesAroundSeparator("w", NatToString(w'), 'd', NatToString(d'));
    NatToStringInjective(w, w');
    NatToStringInjective(d, d');
  }

  /** In a closed-form program no two days share an id. */
  lemma ClosedFormIdsDistinct(p: Program, daysPerWeek: int, start: int)
    requires ClosedFormProgram(p, daysPerWeek, start)
    ensures forall i, j, i', j' ::
      && 0 <= i < |p| && 0 <= j < |p[i].days|
      && 0 <= i' < |p| && 0 <= j' < |p[i'].days|
      && p[i].days[j].id == p[i'].days[j'].id
      ==> i == i' && j == j'
  {
    ClosedFormLabels(p, daysPerWeek, start);
    forall i, j, i', j' |
      && 0 <= i < |p| && 0 <= j < |p[i].days|
      && 0 <= i' < |p| && 0 <= j' < |p[i'].days|
      && p[i].days[j].id == p[i'].days[j'].id
      ensures i == i' && j == j'
    {
      DayIdInjective(i + 1, j + 1, i' + 1, j' + 1);
    }
  }

  /** No two days of a generated program share an id. */
  lemma GeneratedDayIdsDistinct(durationWeeks: int, daysPerWeek: int, start: int)
    ensures var p := GenerateProgram(durationWeeks, daysPerWeek, start);
      forall i, j, i', j' ::
        && 0 <= i < |p| && 0 <= j < |p[i].days|
        && 0 <= i' < |p| && 0 <= j' < |p[i'].days|
        && p[i].days[j].id == p[i'].days[j'].id
        ==> i == i' && j == j'
  {
    GeneratedDayClosedForm(durationWeeks, daysPerWeek, start);
    ClosedFormIdsDistinct(GenerateProgram(durationWeeks, daysPerWeek, start), daysPerWeek, start);
  }

  /** Monday is always a rest day, and so is Friday for plans of fewer than six days. */
  lemma GeneratedRestDays(durationWeeks: int, daysPerWeek: int, start: int)
    ensures var p := GenerateProgram(durationWeeks, daysPerWeek, start);
      forall i :: 0 <= i < |p| ==>
        && p[i].days[0].kind == Rest
        && (daysPerWeek < 6 ==> p[i].days[4].kind == Rest)
  {
    var p := GenerateProgram(durationWeeks, daysPerWeek, start);
    forall i | 0 <= i < |p|
      ensures p[i].days[0].kind == Rest && (daysPerWeek < 6 ==> p[i].days[4].kind == Rest)
    {
      GeneratedDay(durationWeeks, daysPerWeek, start, i, 0);
      GeneratedDay(durationWeeks, daysPerWeek, start, i, 4);
    }
  }

  /** A day is a run exactly when it is eligible and fewer than `daysPerWeek` eligible days precede it. */
  lemma GeneratedRunsTakeEarliestEligibleDays(durationWeeks: int, daysPerWeek: int, start: int)
    ensures var p := GenerateProgram(durationWeeks, daysPerWeek, start);
      forall i, j :: 0 <= i < |p| && 0 <= j < |p[i].days| ==>
        (p[i].days[j].kind == Run <==>
          Eligible(j + 1, daysPerWeek) && EligibleBefore(j + 1, daysPerWeek) < daysPerWeek)
  {
    var p := GenerateProgram(durationWeeks, daysPerWeek, start);
    forall i, j | 0 <= i < |p| && 0 <= j < |p[i].days|
      ensures p[i].days[j].kind == Run <==>
        Eligible(j + 1, daysPerWeek) && EligibleBefore(j + 1, daysPerWeek) < daysPerWeek
    {
      GeneratedDay(durationWeeks, daysPerWeek, start, i, j);
    }
  }

  /**
   * Rest days read "Rest & Recovery", "0 min" and are Complete; run days use
   * template `(w + d) mod 5` and are Pending; no day has a proof image yet.
   */
  lemma GeneratedDayContents(durationWeeks: int, daysPerWeek: int, start: int)
    ensures var p := GenerateProgram(durationWeeks, daysPerWeek, start);
      forall i, j :: 0 <= i < |p| && 0 <= j < |p[i].days| ==>
        && p[i].days[j].proofImage == None
        && (p[i].days[j].kind == Rest ==>
              && p[i].days[j].title == RestTitle
              && p[i].days[j].duration == RestDuration
              && p[i].days[j].status == Complete)
        && (p[i].days[j].kind == Run ==>
              && p[i].days[j].title == WorkoutTypes[(i + j + 2) % 5].title
              && p[i].days[j].duration == WorkoutTypes[(i + j + 2) % 5].duration
              && p[i].days[j].status == Pending)
  {
    var p := GenerateProgram(durationWeeks, daysPerWeek, start);
    forall i, j | 0 <= i < |p| && 0 <= j < |p[i].days|
      ensures
        && p[i].days[j].proofImage == None
        && (p[i].days[j].kind == Rest ==>
              && p[i].days[j].title == RestTitle
              && p[i].days[j].duration == RestDuration
              && p[i].days[j].status == Complete)
        && (p[i].days[j].kind == Run ==>
              && p[i].days[j].title == WorkoutTypes[(i + j + 2) % 5].title
              && p[i].days[j].duration == WorkoutTypes[(i + j + 2) % 5].duration
              && p[i].days[j].status == Pending)
    {
      GeneratedDay(durationWeeks, daysPerWeek, start, i, j);
    }
  }

  /** Every week holds `min(max(daysPerWeek, 0), 6)` runs: never more than `daysPerWeek`, and six at most. */
  lemma GeneratedRunsPerWeek(durationWeeks: int, daysPerWeek: int, start: int)
    ensures var p := GenerateProgram(durationWeeks, daysPerWeek, start);
      forall i :: 0 <= i < |p| ==>
        CountDays(p[i].days, IsRun) == if daysPerWeek <= 0 then 0 else if daysPerWeek < 6 then daysPerWeek else 6
  {
    var p := GenerateProgram(durationWeeks, daysPerWeek, start);
    forall i | 0 <= i < |p|
      ensures CountDays(p[i].days, IsRun) == if daysPerWeek <= 0 then 0 else if daysPerWeek < 6 then daysPerWeek else 6
    {
      GeneratedWeekDays(durationWeeks, daysPerWeek, start, i);
      ClosedDaysRunCount(i + 1, 1, daysPerWeek, start);
    }
  }

  /** For the day counts a plan can be set to (3 to 7), every week has `min(daysPerWeek, 6)` runs. */
  lemma OfferedPlansRunsPerWeek(durationWeeks: int, daysPerWeek: int, start: int)
    requires 3 <= daysPerWeek <= 7
    ensures var p := GenerateProgram(durationWeeks, daysPerWeek, start);
      forall i :: 0 <= i < |p| ==>
        && CountDays(p[i].days, IsRun) == (if daysPerWeek < 6 then daysPerWeek else 6)
        && CountDays(p[i].days, IsRun) <= daysPerWeek
  {
    GeneratedRunsPerWeek(durationWeeks, daysPerWeek, start);
  }

  /** The program's days, read in order, fall on consecutive dates from `start`. */
  lemma GeneratedDatesContiguous(durationWeeks: int, daysPerWeek: int, start: int)
    ensures var days := AllDays(GenerateProgram(durationWeeks, daysPerWeek, start));
      && |days| == 7 * (if durationWeeks > 0 then durationWeeks else 0)
      && (forall k :: 0 <= k < |days| ==> days[k].date == start + k)
      && (forall k, k' :: 0 <= k < k' < |days| ==> days[k].date < days[k'].date)
  {
    var p := GenerateProgram(durationWeeks, daysPerWeek, start);
    AllDaysIndex(p);
    var days := AllDays(p);
    forall k | 0 <= k < |days|
      ensures days[k].date == start + k
    {
      GeneratedDay(durationWeeks, daysPerWeek, start, k / 7, k % 7);
      assert 7 * (k / 7) + k % 7 == k;
    }
  }

  /** Phases never go back: a later week is in the same or a later phase. */
  lemma PhaseMonotone(w: int, w': int, durationWeeks: int)
    requires w <= w'
    ensures PhaseOf(w, durationWeeks) == Peak ==> PhaseOf(w', durationWeeks) == Peak
    ensures PhaseOf(w', durationWeeks) == Base ==> PhaseOf(w, durationWeeks) == Base
  {
  }

  /** When the plan length is a multiple of three, each phase lasts exactly a third of the plan. */
  lemma PhaseThirds(w: int, k: nat)
    requires k >= 1
    ensures PhaseOf(w, 3 * k) == Base <==> w <= k
    ensures PhaseOf(w, 3 * k) == Build <==> k < w <= 2 * k
    ensures PhaseOf(w, 3 * k) == Peak <==> 2 * k < w
  {
  }

  /** The two offered plan lengths split 1-4/5-8/9-12 and 1-2/3-4/5-6. */
  lemma OfferedPlanPhases(w: int)
    ensures 1 <= w <= 4 ==> PhaseOf(w, 12) == Base
    ensures 5 <= w <= 8 ==> PhaseOf(w, 12) == Build
    ensures 9 <= w <= 12 ==> PhaseOf(w, 12) == Peak
    ensures 1 <= w <= 2 ==> PhaseOf(w, 6) == Base
    ensures 3 <= w <= 4 ==> PhaseOf(w, 6) == Build
    ensures 5 <= w <= 6 ==> PhaseOf(w, 6) == Peak
  {
    PhaseThirds(w, 4);
    PhaseThirds(w, 2);
  }
}
