/**
 * The session detail screen: looking a session up by the week and day ids it
 * was opened with, the completion flag and image derived from it, the request
 * the complete button sends and when that button is disabled.
 *
 * Route parameters may be missing; a missing id is `None`. JavaScript treats
 * `undefined`, `0` and `""` alike as false, which `Truthy` spells out.
 */
module SessionDetailScreen {
  import opened Wrappers
  import opened Sequences
  import opened ProgramGenerator

  // ---------------------------------------------------------------------------
  // Lookup
  // ---------------------------------------------------------------------------

  /** The week the screen was opened for: the first with that id, none when the id is missing or unknown. */
  function WeekData(p: Program, weekId: Option<int>): (r: Option<Week>)
    ensures r.Some? ==> weekId.Some? && exists i ::
      && 0 <= i < |p| && r.value == p[i] && p[i].weekId == weekId.value
      && forall k :: 0 <= k < i ==> p[k].weekId != weekId.value
    ensures r.None? <==> weekId.None? || forall k :: 0 <= k < |p| ==> p[k].weekId != weekId.value
  {
    if weekId.None? then None
    else
      var i := FindFrom(p, (w: Week) => w.weekId == weekId.value, 0);
      if i.Some? then Some(p[i.value]) else None
  }

  /** The session shown: the first day with `dayId` inside the week found, absent if either lookup misses. */
  function SessionData(p: Program, weekId: Option<int>, dayId: Option<string>): (r: Option<Day>)
    ensures r.Some? ==> WeekData(p, weekId).Some? && dayId.Some?
    ensures r.Some? ==> var days := WeekData(p, weekId).value.days;
      exists j ::
        && 0 <= j < |days| && r.value == days[j] && days[j].id == dayId.value
        && forall k :: 0 <= k < j ==> days[k].id != dayId.value
    ensures r.None? <==>
      || WeekData(p, weekId).None?
      || dayId.None?
      || forall j :: 0 <= j < |WeekData(p, weekId).value.days| ==> WeekData(p, weekId).value.days[j].id != dayId.value
  {
    var week := WeekData(p, weekId);
    if week.None? || dayId.None? then None
    else
      var j := FindFrom(week.value.days, (d: Day) => d.id == dayId.value, 0);
      if j.Some? then Some(week.value.days[j.value]) else None
  }

  // ---------------------------------------------------------------------------
  // Derived state
  // ---------------------------------------------------------------------------

  /** A missing session is never complete; a found one is complete exactly when its status says so. */
  function IsComplete(session: Option<Day>): (complete: bool)
    ensures session.None? ==> !complete
    ensures session.Some? ==> (complete <==> session.value.status == Complete)
  {
    session.Some? && session.value.status == Complete
  }

  /** The image stored on the session: none when the session is missing. */
  function SavedImage(session: Option<Day>): (image: Option<string>)
    ensures session.None? ==> image.None?
    ensures session.Some? ==> image == session.value.proofImage
  {
    if session.Some? then session.value.proofImage else None
  }

  /** JavaScript truthiness of an optional string: present and non-empty. */
  predicate Truthy(s: Option<string>) {
    s.Some? && s.value != ""
  }

  /** JavaScript truthiness of an optional number: present and non-zero. */
  predicate TruthyId(n: Option<int>) {
    n.Some? && n.value != 0
  }

  /** The image shown: a new selection when there is one, otherwise the saved image. */
  function DisplayImage(selected: Option<string>, saved: Option<string>): (r: Option<string>)
    ensures Truthy(selected) ==> r == selected
    ensures !Truthy(selected) ==> r == saved
    ensures Truthy(r) <==> Truthy(selected) || Truthy(saved)
  {
    if Truthy(selected) then selected else saved
  }

  /** What pressing the complete button asks of the program store. */
  datatype Request =
    | Preview
    | MarkComplete(weekId: int, dayId: string, image: Option<string>)

  /**
   * Without both ids the screen is a preview and asks for nothing; otherwise it
   * asks to complete exactly the session it was opened for, with the displayed image.
   */
  function HandleComplete(weekId: Option<int>, dayId: Option<string>, displayImage: Option<string>): (r: Request)
    ensures r.Preview? ==> weekId.None? || weekId == Some(0) || dayId.None? || dayId == Some("")
    ensures r.MarkComplete? ==>
      && Some(r.weekId) == weekId && r.weekId != 0
      && Some(r.dayId) == dayId && r.dayId != ""
      && r.image == displayImage
  {
    if !TruthyId(weekId) || !Truthy(dayId) then Preview
    else MarkComplete(weekId.value, dayId.value, displayImage)
  }

  /** The button is disabled once the session is complete, unless a new photo was picked. */
  function ButtonDisabled(session: Option<Day>, selected: Option<string>): (disabled: bool)
    ensures disabled ==> session.Some? && session.value.status == Complete
    ensures disabled ==> selected.None? || selected == Some("")
    ensures session.Some? && session.value.status == Complete && (selected.None? || selected == Some("")) ==> disabled
  {
    IsComplete(session) && !Truthy(selected)
  }

  /** A picked photo always enables the button, and so does a session that is not complete. */
  lemma ButtonEnabledCases(session: Option<Day>, selected: Option<string>)
    ensures Truthy(selected) ==> !ButtonDisabled(session, selected)
    ensures !IsComplete(session) ==> !ButtonDisabled(session, selected)
    ensures session.None? ==> !ButtonDisabled(session, selected)
  {
  }

  // ---------------------------------------------------------------------------
  // On a generated program
  // ---------------------------------------------------------------------------

  /**
   * In a closed-form program whose week ids are the 1-based positions, opening
   * week `w` with day id `w{w}d{d}` finds day `d` of week `w`, which is complete
   * exactly when it is a rest day and has no saved image.
   */
  lemma ClosedFormSessionLookup(p: Program, daysPerWeek: int, start: int, w: int, d: int)
    requires ClosedFormProgram(p, daysPerWeek, start)
    requires forall i :: 0 <= i < |p| ==> p[i].weekId == i + 1
    requires 1 <= w <= |p| && 1 <= d <= 7
    ensures var session := SessionData(p, Some(w), Some(DayId(w, d)));
      && session == Some(p[w - 1].days[d - 1])
      && (IsComplete(session) <==> p[w - 1].days[d - 1].kind == Rest)
      && SavedImage(session) == None
  {
    assert p[w - 1].weekId == w;
    var days := p[w - 1].days;
    ClosedFormLabels(p, daysPerWeek, start);
    var j := FindFrom(days, (day: Day) => day.id == DayId(w, d), 0);
    assert days[d - 1].id == DayId(w, d);
    DayIdInjective(w, j.value + 1, w, d);
    assert days[d - 1] == MakeDay(w, d, start, !IsRunSlot(d, daysPerWeek));
  }

  /** The lookup above holds for every generated program. */
  lemma GeneratedSessionLookup(durationWeeks: int, daysPerWeek: int, start: int, w: int, d: int)
    requires 1 <= w <= |GenerateProgram(durationWeeks, daysPerWeek, start)| && 1 <= d <= 7
    ensures var p := GenerateProgram(durationWeeks, daysPerWeek, start);
      var session := SessionData(p, Some(w), Some(DayId(w, d)));
      && session == Some(p[w - 1].days[d - 1])
      && (IsComplete(session) <==> p[w - 1].days[d - 1].kind == Rest)
      && SavedImage(session) == None
  {
    GeneratedDayClosedForm(durationWeeks, daysPerWeek, start);
    ClosedFormSessionLookup(GenerateProgram(durationWeeks, daysPerWeek, start), daysPerWeek, start, w, d);
  }

  /**
   * On a fresh generated program the button is disabled exactly on rest days
   * while no photo is picked, and pressing it on a run day asks to complete
   * that very session without an image.
   */
  lemma GeneratedSessionButton(durationWeeks: int, daysPerWeek: int, start: int, w: int, d: int)
    requires 1 <= w <= |GenerateProgram(durationWeeks, daysPerWeek, start)| && 1 <= d <= 7
    ensures var p := GenerateProgram(durationWeeks, daysPerWeek, start);
      var session := SessionData(p, Some(w), Some(DayId(w, d)));
      && (ButtonDisabled(session, None) <==> p[w - 1].days[d - 1].kind == Rest)
      && HandleComplete(Some(w), Some(DayId(w, d)), DisplayImage(None, SavedImage(session)))
        == MarkComplete(w, DayId(w, d), None)
  {
    GeneratedSessionLookup(durationWeeks, daysPerWeek, start, w, d);
  }
}
