/**
 * The progress roll-ups the profile screen shows for a program: how many runs
 * have been completed overall, which week is the active one, the seven-slot
 * adherence vector of that week and its one-letter day labels.
 */
module ProfileScreen {
  import opened Wrappers
  import opened Sequences
  import opened ProgramGenerator

  // ---------------------------------------------------------------------------
  // Completed runs
  // ---------------------------------------------------------------------------

  predicate IsCompletedRun(day: Day) {
    day.kind == Run && day.status == Complete
  }

  /** A property that implies another is met by no more days. */
  lemma {:induction false} CountDaysMonotone(s: seq<Day>, P: Day -> bool, Q: Day -> bool)
    requires forall k :: 0 <= k < |s| && P(s[k]) ==> Q(s[k])
    ensures CountDays(s, P) <= CountDays(s, Q)
    decreases |s|
  {
    if |s| > 0 {
      assert forall k :: 0 <= k < |s[1..]| ==> s[1..][k] == s[k + 1];
      CountDaysMonotone(s[1..], P, Q);
    }
  }

  /** No day meets a property that no position of the sequence meets. */
  lemma CountDaysNone(s: seq<Day>, P: Day -> bool)
    requires forall k :: 0 <= k < |s| ==> !P(s[k])
    ensures CountDays(s, P) == 0
  {
    CountDaysIsCardinality(s, P);
    assert (set k | 0 <= k < |s| && P(s[k])) == {};
  }

  lemma CompletedRunsAreCounted(days: seq<Day>)
    ensures CountDays(days, IsCompletedRun) == |set k | 0 <= k < |days| && IsCompletedRun(days[k])|
  {
    var P: Day -> bool := IsCompletedRun;
    CountDaysIsCardinality(days, P);
    var counted := set k | 0 <= k < |days| && P(days[k]);
    forall k | 0 <= k < |days|
      ensures k in counted <==> IsCompletedRun(days[k])
    {
    }
    assert counted == set k | 0 <= k < |days| && IsCompletedRun(days[k]);
  }

  /**
   * Runs marked Complete across every week: the number of positions of the
   * flattened program holding a completed run, which is never more than the
   * number of run days (rest days are not counted, whatever their status).
   */
  function CompletedRuns(p: Program): (n: nat)
    ensures n == |set k | 0 <= k < |AllDays(p)| && IsCompletedRun(AllDays(p)[k])|
    ensures n <= CountDays(AllDays(p), IsRun)
  {
    var days := AllDays(p);
    CompletedRunsAreCounted(days);
    CountDaysMonotone(days, IsCompletedRun, IsRun);
    CountDays(days, IsCompletedRun)
  }

  /** A freshly generated program has no completed runs: runs start Pending. */
  lemma FreshProgramHasNoCompletedRuns(durationWeeks: int, daysPerWeek: int, start: int)
    ensures CompletedRuns(GenerateProgram(durationWeeks, daysPerWeek, start)) == 0
  {
    var p := GenerateProgram(durationWeeks, daysPerWeek, start);
    AllDaysIndex(p);
    var days := AllDays(p);
    forall k | 0 <= k < |days|
      ensures !IsCompletedRun(days[k])
    {
      GeneratedDay(durationWeeks, daysPerWeek, start, k / 7, k % 7);
    }
    CountDaysNone(days, IsCompletedRun);
  }

  // ---------------------------------------------------------------------------
  // Active week
  // ---------------------------------------------------------------------------

  predicate IsActive(week: Week) {
    week.status == Active
  }

  /**
   * Position of the week the screen reports on: the first Active week, or the
   * first week when none is Active. The program must not be empty (the screen
   * reads the days of the chosen week).
   */
  function ActiveWeekIndex(p: Program): (i: nat)
    requires |p| > 0
    ensures i < |p|
    ensures p[i].status == Active ==> forall k :: 0 <= k < i ==> p[k].status != Active
    ensures p[i].status != Active ==> i == 0 && forall k :: 0 <= k < |p| ==> p[k].status != Active
  {
    FindFrom(p, IsActive, 0).GetOr(0)
  }

  /** The week the screen reports on: the first Active week, or the first week when none is Active. */
  function ActiveWeek(p: Program): (week: Week)
    requires |p| > 0
    ensures exists i ::
      && 0 <= i < |p| && week == p[i]
      && (forall k :: 0 <= k < i ==> p[k].status != Active)
      && (week.status != Active ==> i == 0)
    ensures (exists k :: 0 <= k < |p| && p[k].status == Active) <==> week.status == Active
  {
    p[ActiveWeekIndex(p)]
  }

  /** Every generated week is Active, so the active week of a generated program is week 1. */
  lemma GeneratedActiveWeekIsFirst(durationWeeks: int, daysPerWeek: int, start: int)
    requires durationWeeks >= 1
    ensures var p := GenerateProgram(durationWeeks, daysPerWeek, start);
      ActiveWeekIndex(p) == 0 && ActiveWeek(p).weekId == 1
  {
  }

  // ---------------------------------------------------------------------------
  // Weekly adherence
  // ---------------------------------------------------------------------------

  /** One slot of the adherence vector: rest days always score, run days only once Complete. */
  function Adherence(day: Day): (a: int)
    ensures a == 0 || a == 1
    ensures a == 1 <==> IsRest(day) || IsCompletedRun(day)
  {
    if day.kind == Rest then 1
    else if day.status == Complete then 1
    else 0
  }

  function AdherenceOf(days: seq<Day>): (v: seq<int>)
    ensures |v| == |days|
    ensures forall i :: 0 <= i < |v| ==> v[i] == Adherence(days[i])
  {
    seq(|days|, i requires 0 <= i < |days| => Adherence(days[i]))
  }

  /** The adherence vector of the active week, one 0/1 entry per day. */
  function WeeklyAdherence(p: Program): (v: seq<int>)
    requires |p| > 0
    ensures |v| == |ActiveWeek(p).days|
    ensures forall i :: 0 <= i < |v| ==> v[i] == 0 || v[i] == 1
    ensures forall i :: 0 <= i < |v| ==>
      (v[i] == 1 <==> ActiveWeek(p).days[i].kind == Rest || ActiveWeek(p).days[i].status == Complete)
  {
    AdherenceOf(ActiveWeek(p).days)
  }

  function Sum(v: seq<int>): int {
    if |v| == 0 then 0 else v[0] + Sum(v[1..])
  }

  /** The filled slots are the rest days plus the completed runs. */
  lemma {:induction false} AdherenceSum(days: seq<Day>)
    ensures Sum(AdherenceOf(days)) == CountDays(days, IsRest) + CountDays(days, IsCompletedRun)
    decreases |days|
  {
    if |days| > 0 {
      assert AdherenceOf(days)[1..] == AdherenceOf(days[1..]);
      AdherenceSum(days[1..]);
    }
  }

  /** In a fresh week a slot is filled exactly on a rest day, so seven slots minus the runs are filled. */
  lemma FreshWeekAdherence(durationWeeks: int, daysPerWeek: int, start: int, i: int)
    requires 0 <= i < |GenerateProgram(durationWeeks, daysPerWeek, start)|
    ensures var days := GenerateProgram(durationWeeks, daysPerWeek, start)[i].days;
      && (forall j :: 0 <= j < |days| ==> (AdherenceOf(days)[j] == 1 <==> days[j].kind == Rest))
      && Sum(AdherenceOf(days)) == 7 - CountDays(days, IsRun)
  {
    var days := GenerateProgram(durationWeeks, daysPerWeek, start)[i].days;
    forall j | 0 <= j < |days|
      ensures !IsCompletedRun(days[j])
      ensures AdherenceOf(days)[j] == 1 <==> days[j].kind == Rest
    {
      GeneratedDay(durationWeeks, daysPerWeek, start, i, j);
    }
    CountDaysNone(days, IsCompletedRun);
    AdherenceSum(days);
    RestAndRunPartition(days);
  }

  // ---------------------------------------------------------------------------
  // Day labels
  // ---------------------------------------------------------------------------

  /** JavaScript's `charAt(0)`: the first character, or "" for the empty string. */
  function FirstChar(s: string): (r: string)
    ensures |r| <= 1
    ensures |s| > 0 <==> |r| == 1
    ensures |r| == 1 ==> r[0] == s[0]
  {
    if |s| == 0 then "" else [s[0]]
  }

  /** The one-letter label of every day of the active week. */
  function DayLabels(p: Program): (labels: seq<string>)
    requires |p| > 0
    ensures |labels| == |ActiveWeek(p).days|
    ensures forall i :: 0 <= i < |labels| ==> labels[i] == FirstChar(ActiveWeek(p).days[i].weekday)
  {
    var days := ActiveWeek(p).days;
    seq(|days|, i requires 0 <= i < |days| => FirstChar(days[i].weekday))
  }

  const WeekdayInitials: seq<string> := ["M", "T", "W", "T", "F", "S", "S"]

  lemma WeekdayInitialsAreFirstChars(j: int)
    requires 0 <= j < 7
    ensures FirstChar(Weekdays[j]) == WeekdayInitials[j]
  {
  }

  /** On a generated program the labels read M, T, W, T, F, S, S. */
  lemma GeneratedDayLabelsRead(durationWeeks: int, daysPerWeek: int, start: int)
    requires durationWeeks >= 1
    ensures DayLabels(GenerateProgram(durationWeeks, daysPerWeek, start)) == WeekdayInitials
  {
    var p := GenerateProgram(durationWeeks, daysPerWeek, start);
    GeneratedActiveWeekIsFirst(durationWeeks, daysPerWeek, start);
    var labels := DayLabels(p);
    forall j | 0 <= j < 7
      ensures labels[j] == WeekdayInitials[j]
    {
      GeneratedDayLabel(durationWeeks, daysPerWeek, start, 0, j);
      WeekdayInitialsAreFirstChars(j);
    }
  }
}
