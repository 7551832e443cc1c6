# Metabolic running coach: training-program model

This project is a Dafny model of the logic behind a running-coach mobile app.
The app builds a multi-week training program from two settings: the plan length in weeks and the number of training days per week.
It keeps a user profile that screens update by shallow merge.
From the program and the profile, the screens derive what they show:
- the number of completed runs;
- the active week's adherence vector and day labels;
- the personal-best editor's form;
- a session's lookup, completion flag, displayed photo and complete button;
- paces formatted as `M:SS /km`.

Modules follow the source files:

| module | file | models |
|---|---|---|
| `ProgramGenerator` | `program_generator.dfy` | `generateProgram`: phases, greedy run placement, day ids, dates, workout rotation |
| `UserContext` | `user_context.dfy` | the default profile and `updateUser` |
| `ProfileScreen` | `profile_screen.dfy` | completed runs, active week, weekly adherence, day labels |
| `StatisticsScreen` | `statistics_screen.dfy` | distance tabs, `handleTabChange`, `handleSave` |
| `SessionDetailScreen` | `session_detail_screen.dfy` | session lookup, `isComplete`, `displayImage`, `handleComplete`, the button's `disabled` |
| `Conversions` | `conversions.dfy` | `formatPace`, metric branch |
| `Sequences` | `sequences.dfy` | the first-match search behind `find` and `indexOf` |
| `Strings`, `Wrappers` | `strings.dfy`, `wrappers.dfy` | decimal rendering of naturals, `indexOf` on strings, `Option` |

Dates are day numbers: the start date is an integer `start`, and day `d` of week `w` falls on `start + 7(w-1) + (d-1)`.
The generator's default arguments and `new Date()` become explicit parameters.
Optional values (`null`, `undefined`, a missing key) become `Option`.
JavaScript truthiness is spelled out where the code relies on it (`Truthy`, `TruthyId`, `OrEmpty`).

Every generated week has status Active.
This follows `programGenerator.js:35`.
The comment on line 34 instead says that week 1 is Active and the later weeks are Locked.
The model follows the code.

## Model

| member | source | states |
|---|---|---|
| ProgramGenerator.GenerateProgram | src/Utils/programGenerator.js:21-94 | one week per week number `1..durationWeeks` (none for a non-positive length); week `w` has id `w`, title "Week w", the phase for `w`, status Active and seven days |
| ProgramGenerator.GenDays | src/Utils/programGenerator.js:38-82 | the day loop from day `d` emits `8-d` days and places no more runs than the `daysPerWeek - runCount` still allowed |
| ProgramGenerator.GreedyStep | src/Utils/programGenerator.js:50-80 | one step of the loop: the `isRestDay` test (`IsRestDay`) rests exactly on the days where the closed form places no run, and `runCount` stays the number of runs placed so far |
| ProgramGenerator.EligibleBeforeIsCount | src/Utils/programGenerator.js:50 | the closed-form count of eligible days before `d` is zero at Monday and grows by one past each day that is neither Monday nor a rested Friday |
| ProgramGenerator.GenDaysClosedForm | src/Utils/programGenerator.js:39-81 | the greedy day loop produces exactly the closed-form week, in which runs take the earliest eligible days |
| ProgramGenerator.ClosedDaysRunCount | src/Utils/programGenerator.js:39-80 | the closed-form week from day `d` holds the runs placed from `d` on |
| ProgramGenerator.GeneratedDay | src/Utils/programGenerator.js:41-81 | day `j` of week `i` of a generated program is the closed-form day for that week and weekday |
| ProgramGenerator.GeneratedDayClosedForm | src/Utils/programGenerator.js:41-81 | every generated program is in closed form: seven days per week, each the closed-form day for its position |
| ProgramGenerator.GeneratedDayLabels | src/Utils/programGenerator.js:43-53 | day `j` of week `i` has id `w{i+1}d{j+1}`, label `WEEKDAYS[j]` and date `start + 7i + j` |
| ProgramGenerator.DayIdInjective | src/Utils/programGenerator.js:52 | the id `w{w}d{d}` determines both numbers |
| ProgramGenerator.GeneratedDayIdsDistinct | src/Utils/programGenerator.js:52 | no two days of a generated program share an id |
| ProgramGenerator.GeneratedRestDays | src/Utils/programGenerator.js:50 | Monday is always a rest day, and so is Friday when fewer than six days per week are asked for |
| ProgramGenerator.GeneratedRunsTakeEarliestEligibleDays | src/Utils/programGenerator.js:48-50 | a day is a run if and only if it is eligible and fewer than `daysPerWeek` eligible days come before it |
| ProgramGenerator.GeneratedDayContents | src/Utils/programGenerator.js:56-80 | rest days read "Rest & Recovery", "0 min" and are Complete; run days take template `(w+d) mod 5` and are Pending; no day has a proof image |
| ProgramGenerator.GeneratedRunsPerWeek | src/Utils/programGenerator.js:39-80 | every week has `min(max(daysPerWeek,0),6)` runs, so never more than asked and never on all seven days |
| ProgramGenerator.OfferedPlansRunsPerWeek | src/Utils/programGenerator.js:39-80 | for 3 to 7 days per week, every week has `min(daysPerWeek,6)` runs |
| ProgramGenerator.GeneratedDatesContiguous | src/Utils/programGenerator.js:43-46 | the flattened days fall on consecutive, strictly increasing dates from `start` |
| ProgramGenerator.PhaseOf | src/Utils/programGenerator.js:29-31 | the phase of a week in integers equals the loop's rule on real division: Base, then Build past a third, then Peak past two thirds, where the Peak test is applied last |
| ProgramGenerator.PhaseMonotone | src/Utils/programGenerator.js:29-31 | phases never go back as the week number grows |
| ProgramGenerator.PhaseThirds | src/Utils/programGenerator.js:29-31 | for a length of `3k`, Base covers weeks up to `k`, Build covers weeks `k+1..2k` and Peak the rest |
| ProgramGenerator.OfferedPlanPhases | src/Utils/programGenerator.js:29-31 | 12 weeks split 1-4/5-8/9-12 and 6 weeks split 1-2/3-4/5-6 |
| ProgramGenerator.AllDaysIndex | src/screens/ProfileScreen.js:26-27 | flattening seven-day weeks puts day `k mod 7` of week `k div 7` at position `k` |
| Strings.DigitsRoundTrip | src/Utils/programGenerator.js:52 | a number rendered by a template literal is all digits and reads back as the same number |
| UserContext.DefaultPbTimes | src/context/UserContext.js:23-29 | the default personal-best table covers 5k, 10k, 15k, Half and Full, with no post-plan time |
| UserContext.DefaultUser | src/context/UserContext.js:4-30 | the default profile has the eleven schema fields, 5 training days, 12 weeks, metric units and the default personal-best table |
| UserContext.UpdateUser | src/context/UserContext.js:38-40 | after a merge, the updated keys take the new values and every other key keeps its old value; no key is lost |
| UserContext.UpdateIdempotent | src/context/UserContext.js:39 | applying the same update twice is the same as applying it once |
| UserContext.UpdatesCompose | src/context/UserContext.js:39 | two updates in a row equal one update with the merged record, the later one winning |
| UserContext.UpdateWithNothing | src/context/UserContext.js:39 | an empty update changes nothing |
| UserContext.UpdateReplacesNestedTable | src/context/UserContext.js:39 | the merge is shallow: an update carrying `pb_times` replaces the whole table, whatever was there before |
| UserContext.UpdatesKeepKeys | src/context/UserContext.js:38-40 | any sequence of updates keeps every field of the starting profile |
| UserContext.ProfileKeepsDefaultFields | src/context/UserContext.js:35-40 | the profile, starting from the defaults, keeps every default field whatever updates follow |
| ProfileScreen.CompletedRuns | src/screens/ProfileScreen.js:26-29 | the number of positions in the flattened program that hold a Complete run, never more than the number of run days |
| ProfileScreen.FreshProgramHasNoCompletedRuns | src/screens/ProfileScreen.js:26-29 | a freshly generated program shows 0 completed runs |
| ProfileScreen.ActiveWeekIndex | src/screens/ProfileScreen.js:32 | the first Active week, or the first week when none is Active |
| ProfileScreen.ActiveWeek | src/screens/ProfileScreen.js:32 | the chosen week is the first Active week, or the first week when none is Active; it is Active if and only if some week is |
| ProfileScreen.GeneratedActiveWeekIsFirst | src/screens/ProfileScreen.js:32 | on a generated program the active week is week 1 |
| ProfileScreen.Adherence | src/screens/ProfileScreen.js:35-40 | a slot is 1 if and only if the day is a rest day or a Complete day, and 0 otherwise |
| ProfileScreen.WeeklyAdherence | src/screens/ProfileScreen.js:35-40 | one 0/1 entry per day of the active week, 1 exactly on rest or Complete days |
| ProfileScreen.AdherenceSum | src/screens/ProfileScreen.js:35-40 | the filled slots number the rest days plus the completed runs |
| ProfileScreen.FreshWeekAdherence | src/screens/ProfileScreen.js:35-40 | in a fresh generated week, a slot is filled if and only if its day is a rest day, so the filled slots number seven minus the runs |
| ProfileScreen.FirstChar | src/screens/ProfileScreen.js:43 | `charAt(0)`: the first character, or "" for an empty string |
| ProfileScreen.DayLabels | src/screens/ProfileScreen.js:43 | one label per day of the active week, the first letter of its weekday |
| ProfileScreen.GeneratedDayLabelsRead | src/screens/ProfileScreen.js:43 | on a generated program the labels read M, T, W, T, F, S, S |
| StatisticsScreen.OrEmpty | src/screens/StatisticsScreen.js:16-17 | a stored time reads as "" if and only if it is missing or empty; any other reading is exactly the stored time |
| StatisticsScreen.LoadTab | src/screens/StatisticsScreen.js:21-25 | a tab shows the stored pre and post times of its distance, with "" where the record or a time is missing |
| StatisticsScreen.InitialForm | src/screens/StatisticsScreen.js:12-17 | the editor opens on the first distance, 5k, with its saved times |
| StatisticsScreen.HandleTabChange | src/screens/StatisticsScreen.js:21-25 | switching tabs selects the new distance and shows its stored pre and post times, with "" where the record or a time is missing |
| StatisticsScreen.TabChangeDiscardsInput | src/screens/StatisticsScreen.js:21-25 | unsaved input before a tab switch has no effect after it |
| StatisticsScreen.HandleSave | src/screens/StatisticsScreen.js:27-37 | saving stores the form's times as the selected distance's record, leaves every other distance and profile field unchanged, and adds no profile key |
| StatisticsScreen.SaveThenLoad | src/screens/StatisticsScreen.js:21-37 | reopening the saved tab shows exactly what was saved |
| StatisticsScreen.LoadThenSave | src/screens/StatisticsScreen.js:21-37 | saving what a tab shows changes nothing that any tab would show |
| StatisticsScreen.SaveKeepsOtherTabs | src/screens/StatisticsScreen.js:29-35 | a save leaves every other tab's contents unchanged |
| StatisticsScreen.DefaultProfileCoversDistances | src/screens/StatisticsScreen.js:8-17 | the default profile has a record for exactly the five tabs, and the editor opens on 5k showing "22:30" and "" |
| Sequences.FindFrom | src/screens/SessionDetailScreen.js:16-17 | `find`: the first position with the property, or none when no position has it |
| SessionDetailScreen.WeekData | src/screens/SessionDetailScreen.js:16 | the first week with the requested id, absent if and only if the id is missing or no week has it |
| SessionDetailScreen.SessionData | src/screens/SessionDetailScreen.js:16-17 | the first day with the requested id inside the week found, absent if and only if either id is missing or either lookup misses |
| SessionDetailScreen.DisplayImage | src/screens/SessionDetailScreen.js:27 | a new selection wins over the saved image, and the result is truthy if and only if one of the two is |
| SessionDetailScreen.HandleComplete | src/screens/SessionDetailScreen.js:29-36 | a preview only when an id is missing, 0 or empty; a completion request carries exactly the screen's non-zero week id, non-empty day id and displayed image |
| SessionDetailScreen.ButtonDisabled | src/screens/SessionDetailScreen.js:112 | a disabled button means a found, Complete session and no picked photo; a Complete session with no picked photo always disables it |
| SessionDetailScreen.ButtonEnabledCases | src/screens/SessionDetailScreen.js:112 | a picked photo, an incomplete session or a missing session always leaves the button enabled |
| SessionDetailScreen.ClosedFormSessionLookup | src/screens/SessionDetailScreen.js:16-21 | in a closed-form program, week `w` and id `w{w}d{d}` find day `d` of week `w`; `isComplete` (`IsComplete`) holds if and only if it is a rest day, and `savedImage` (`SavedImage`) is empty |
| SessionDetailScreen.GeneratedSessionLookup | src/screens/SessionDetailScreen.js:16-21 | the same lookup on every generated program |
| SessionDetailScreen.GeneratedSessionButton | src/screens/SessionDetailScreen.js:29-36 | on a fresh generated session the button is disabled only on rest days, and pressing it asks to complete that very session without an image |
| Conversions.PaddedSeconds | src/Utils/conversions.js:28-29 | the seconds field gets a leading `0` below ten, is all digits and reads back as the seconds |
| Conversions.FormatPace | src/Utils/conversions.js:19-30 | a non-imperial pace reads `M:SS /km`; the field after the colon holds the seconds modulo 60 |
| Conversions.FormatPaceRoundTrip | src/Utils/conversions.js:27-29 | parsing a formatted whole-second pace gives back the seconds |
| Conversions.NonImperialIsMetric | src/Utils/conversions.js:20-29 | every preference other than "imperial" formats exactly as "metric" does |
| Conversions.FormatPaceExamples | src/Utils/conversions.js:27-29 | 300 seconds reads "5:00 /km" and 65 seconds reads "1:05 /km" |
| Conversions.Round | src/Utils/conversions.js:28 | `Math.round` on a non-negative number: the nearest whole number, with halves rounded up |
| Conversions.MinutesField | src/Utils/conversions.js:27 | the minutes field is the pace floored to whole minutes |
| Conversions.SecondsFieldAsWritten | src/Utils/conversions.js:28 | the remainder rounded on its own is at most 60, and below 60 the two fields add up to the rounded pace |
| Conversions.FormatPaceAsWritten | src/Utils/conversions.js:27-29 | as written, a fractional pace renders `M:SS /km` with a seconds field of at most 60; the text parses back to the rounded pace when that field is below 60, and is no valid pace when it is 60 |
| Conversions.AsWrittenShowsSixtySeconds | src/Utils/conversions.js:27-29 | as written, 359.5 seconds renders "5:60 /km", which is not a valid pace |
| Conversions.FormatPaceRounded | src/Utils/conversions.js:27-29 | corrected: the rendering parses back to the rounded pace, and its seconds field is below 60 |
| Conversions.RoundedAgreesOnWholeSeconds | src/Utils/conversions.js:27-29 | on whole seconds, the corrected and the as-written renderings agree |

## Left out

- Conversions.FormatPace: only the metric branch is modelled; the imperial branch divides by the float `0.621371`, and its `/mi` rendering is left out because it is floating-point arithmetic.
- Conversions.FormatPace: takes whole seconds; fractional paces are handled only by `FormatPaceAsWritten` and `FormatPaceRounded`.
- Conversions.FormatPaceAsWritten: fractional paces use exact real arithmetic, not IEEE doubles, and so do `Round`, `MinutesField`, `SecondsFieldAsWritten` and `FormatPaceRounded`. Results can differ where a double rounds, for instance where `secondsPerKm / 60` rounds up to a whole number. The finding's input 359.5 is exact in binary.
- `toMiles`, `toKm` and `formatDistance` are left out: they are floating-point conversions with `toFixed(1)`.
- `formatDate` and JavaScript `Date` month rollover are left out. Dates are day numbers, so the "18 Nov" label is not modelled.
- ProgramGenerator.GenerateProgram: the plan length is an integer. A fractional `durationWeeks` would make the loop run `floor(durationWeeks)` times and is not modelled.
- ProgramGenerator.GenerateProgram: rest days in the source have no `proofImage` key, while run days have `proofImage: null`. Both are `None` here.
- Profile fields are not parsed from text: `parseFloat` and numeric coercion at the screens' inputs are not modelled.
- The store's `program` and `markSessionComplete` are left out: the `UserProvider` at `src/context/UserContext.js:43` does not provide them. The program is therefore a parameter of the screens' functions, and `handleComplete`'s call is the `Request` value it would make.
- ProfileScreen.ActiveWeekIndex: requires a non-empty program. On an empty program the source reads `.days` of `undefined` and throws.
- StatisticsScreen.LoadTab, StatisticsScreen.InitialForm, StatisticsScreen.HandleTabChange, StatisticsScreen.HandleSave: require the profile to hold a `pb_times` table. Without one the screen's initial state (`src/screens/StatisticsScreen.js:16`) reads a key of `undefined` and throws before any of them can run.
- `Alert.alert` calls, navigation, the image picker, styling and rendering are left out as user-interface side effects.
- `src/data/dummyProgram.js` and the overview, dashboard, settings and onboarding screens are not part of this model.
- React state updates are modelled as pure functions from the old state to the new one. Asynchrony and re-rendering are left out.
- The source's week ids come from route parameters and could be strings, in which case `===` would never match a numeric id. Ids here are integers.

## Findings

| source | as written | input that shows it | evidently intended | confidence | as-written member | corrected member |
|---|---|---|---|---|---|---|
| src/Utils/conversions.js:27-29 | minutes are `Math.floor(s / 60)` and the seconds are `Math.round(s % 60)`, rounded on their own, so the seconds can round up to 60 without carrying into the minutes | `formatPace(359.5, 'metric')` gives "5:60 /km" | round the whole pace to seconds first, giving "6:00 /km" | high, not executed | Conversions.FormatPaceAsWritten, Conversions.AsWrittenShowsSixtySeconds | Conversions.FormatPaceRounded |

The imperial branch (`src/Utils/conversions.js:21-24`) splits the pace the same way and has the same flaw. It is not modelled.
