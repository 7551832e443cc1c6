/**
 * The personal-best editor: a tab per race distance, a form holding the
 * selected distance and its pre/post times, loading a tab from the profile and
 * saving the form back into the profile's `pb_times` table.
 */
module StatisticsScreen {
  import opened Wrappers
  import opened UserContext

  /** The distances offered as tabs, in display order. */
  const Distances: seq<string> := ["5k", "10k", "15k", "Half", "Full"]

  /** The screen reads `pb_times` as a table; a profile without one is outside what it handles. */
  predicate HasPbTable(user: Profile) {
    "pb_times" in user && user["pb_times"].PbTable?
  }

  function PbTimes(user: Profile): map<string, PbRecord>
    requires HasPbTable(user)
  {
    user["pb_times"].records
  }

  /** JavaScript's `x || ""` on a stored time: a missing, null or empty time reads as "". */
  function OrEmpty(v: Option<string>): (s: string)
    ensures s == "" <==> v.None? || v.value == ""
    ensures s != "" ==> v == Some(s)
  {
    if v.Some? then v.value else ""
  }

  /** The editor's local state: the selected tab and the two text inputs. */
  datatype Form = Form(selectedDist: string, preTime: string, postTime: string)

  /** The form showing the saved times of `dist`, "" where the record or a time is missing. */
  function LoadTab(user: Profile, dist: string): (f: Form)
    requires HasPbTable(user)
    ensures f.selectedDist == dist
    ensures dist in PbTimes(user) ==>
      f.preTime == OrEmpty(PbTimes(user)[dist].pre) && f.postTime == OrEmpty(PbTimes(user)[dist].post)
    ensures dist !in PbTimes(user) ==> f.preTime == "" && f.postTime == ""
  {
    var record := if dist in PbTimes(user) then Some(PbTimes(user)[dist]) else None;
    var pre := if record.Some? then record.value.pre else None;
    var post := if record.Some? then record.value.post else None;
    Form(dist, OrEmpty(pre), OrEmpty(post))
  }

  /** The screen opens on the "5k" tab. */
  function InitialForm(user: Profile): (f: Form)
    requires HasPbTable(user)
    ensures f.selectedDist == Distances[0]
    ensures f == LoadTab(user, "5k")
  {
    LoadTab(user, "5k")
  }

  /**
   * Switching tabs selects the new distance and shows its saved times, "" where
   * the record or a time is missing; the form being left plays no part.
   */
  function HandleTabChange(user: Profile, form: Form, dist: string): (f: Form)
    requires HasPbTable(user)
    ensures f.selectedDist == dist
    ensures dist in PbTimes(user) ==>
      f.preTime == OrEmpty(PbTimes(user)[dist].pre) && f.postTime == OrEmpty(PbTimes(user)[dist].post)
    ensures dist !in PbTimes(user) ==> f.preTime == "" && f.postTime == ""
  {
    LoadTab(user, dist)
  }

  /** What was typed before switching tabs has no effect on the form afterwards. */
  lemma TabChangeDiscardsInput(user: Profile, form: Form, form': Form, dist: string)
    requires HasPbTable(user)
    ensures HandleTabChange(user, form, dist) == HandleTabChange(user, form', dist)
  {
  }

  /**
   * Saving writes the form's times as the selected distance's record and hands
   * only the rebuilt `pb_times` table to the shallow profile update.
   */
  function HandleSave(user: Profile, form: Form): (u: Profile)
    requires HasPbTable(user)
    ensures HasPbTable(u)
    ensures PbTimes(u).Keys == PbTimes(user).Keys + {form.selectedDist}
    ensures PbTimes(u)[form.selectedDist] == PbRecord(Some(form.preTime), Some(form.postTime))
    ensures forall d :: d in PbTimes(user) && d != form.selectedDist ==> PbTimes(u)[d] == PbTimes(user)[d]
    ensures u.Keys == user.Keys
    ensures forall k :: k in user && k != "pb_times" ==> u[k] == user[k]
  {
    var updated := PbTimes(user)[form.selectedDist := PbRecord(Some(form.preTime), Some(form.postTime))];
    UpdateUser(user, map["pb_times" := PbTable(updated)])
  }

  /** Saving a form and reopening its tab shows exactly what was saved. */
  lemma SaveThenLoad(user: Profile, form: Form)
    requires HasPbTable(user)
    ensures LoadTab(HandleSave(user, form), form.selectedDist) == form
  {
  }

  /** Saving what a tab already shows changes nothing that tab would show. */
  lemma LoadThenSave(user: Profile, dist: string)
    requires HasPbTable(user)
    ensures var u := HandleSave(user, LoadTab(user, dist));
      forall d :: LoadTab(u, d) == LoadTab(user, d)
  {
    var u := HandleSave(user, LoadTab(user, dist));
    forall d
      ensures LoadTab(u, d) == LoadTab(user, d)
    {
      if d == dist {
        SaveThenLoad(user, LoadTab(user, dist));
      }
    }
  }

  /** A save touches no other tab. */
  lemma SaveKeepsOtherTabs(user: Profile, form: Form, dist: string)
    requires HasPbTable(user)
    requires dist != form.selectedDist
    ensures LoadTab(HandleSave(user, form), dist) == LoadTab(user, dist)
  {
  }

  /** The default profile has a record for every tab, and the screen opens on 5k's "22:30". */
  lemma DefaultProfileCoversDistances()
    ensures HasPbTable(DefaultUser())
    ensures forall d :: d in Distances <==> d in PbTimes(DefaultUser())
    ensures InitialForm(DefaultUser()) == Form("5k", "22:30", "")
  {
  }
}
