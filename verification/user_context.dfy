/**
 * The shared user profile: the default record a fresh install starts from and
 * `updateUser`, which merges a partial record into the current one.
 *
 * A profile is a map from field name to value. JavaScript's `{ ...prev, ...updates }`
 * is a right-biased union of the top-level keys only: a nested object in
 * `updates` (such as `pb_times`) replaces the old one as a whole.
 */
module UserContext {
  import opened Wrappers

  /** A personal best before and after the plan; `null` is `None`. */
  datatype PbRecord = PbRecord(pre: Option<string>, post: Option<string>)

  /** The kinds of value a profile field holds. */
  datatype Value =
    | Null
    | Num(x: real)
    | Text(s: string)
    | TextList(items: seq<string>)
    | PbTable(records: map<string, PbRecord>)

  type Profile = map<string, Value>

  /** The personal-best table a new profile starts with. */
  function DefaultPbTimes(): (t: map<string, PbRecord>)
    ensures t.Keys == {"5k", "10k", "15k", "Half", "Full"}
    ensures forall k :: k in t ==> t[k].post.None?
  {
    map[
      "5k" := PbRecord(Some("22:30"), None),
      "10k" := PbRecord(Some("48:00"), None),
      "15k" := PbRecord(None, None),
      "Half" := PbRecord(Some("1:45:00"), None),
      "Full" := PbRecord(None, None)
    ]
  }

  const DefaultKeys: set<string> := {
    "username", "profile_image_url", "vo2_max", "hr_max", "lt1_hr", "lt2_hr",
    "availability_days", "plan_duration_weeks", "preferred_unit",
    "stats_display_preferences", "pb_times"
  }

  /** The profile a fresh install starts with. */
  function DefaultUser(): (u: Profile)
    ensures u.Keys == DefaultKeys
    ensures u["availability_days"] == Num(5.0) && u["plan_duration_weeks"] == Num(12.0)
    ensures u["preferred_unit"] == Text("metric")
    ensures u["pb_times"] == PbTable(DefaultPbTimes())
  {
    map[
      "username" := Null,
      "profile_image_url" := Null,
      "vo2_max" := Num(54.0),
      "hr_max" := Num(190.0),
      "lt1_hr" := Num(145.0),
      "lt2_hr" := Num(170.0),
      "availability_days" := Num(5.0),
      "plan_duration_weeks" := Num(12.0),
      "preferred_unit" := Text("metric"),
      "stats_display_preferences" := TextList(["5k", "Half Marathon"]),
      "pb_times" := PbTable(DefaultPbTimes())
    ]
  }

  /** Shallow merge: every key of `updates` takes its new value, every other key keeps its old one. */
  function UpdateUser(prev: Profile, updates: Profile): (u: Profile)
    ensures u.Keys == prev.Keys + updates.Keys
    ensures forall k :: k in updates ==> u[k] == updates[k]
    ensures forall k :: k in prev && k !in updates ==> u[k] == prev[k]
  {
    prev + updates
  }

  /** Applying the same update twice is the same as applying it once. */
  lemma UpdateIdempotent(prev: Profile, updates: Profile)
    ensures UpdateUser(UpdateUser(prev, updates), updates) == UpdateUser(prev, updates)
  {
  }

  /** Two updates in a row are one update with the merged record, the later one winning. */
  lemma UpdatesCompose(prev: Profile, first: Profile, second: Profile)
    ensures UpdateUser(UpdateUser(prev, first), second) == UpdateUser(prev, UpdateUser(first, second))
  {
  }

  /** An empty update leaves the profile as it was. */
  lemma UpdateWithNothing(prev: Profile)
    ensures UpdateUser(prev, map[]) == prev
  {
  }

  /**
   * The merge is shallow: when the update carries a `pb_times` table, the result's
   * table is exactly that one, whatever the old profile held.
   */
  lemma UpdateReplacesNestedTable(prev: Profile, prev': Profile, updates: Profile)
    requires "pb_times" in updates
    ensures UpdateUser(prev, updates)["pb_times"] == UpdateUser(prev', updates)["pb_times"]
  {
  }

  /** The profile after a sequence of `updateUser` calls, applied in order from `prev`. */
  function UpdateAll(prev: Profile, updates: seq<Profile>): Profile
    decreases |updates|
  {
    if |updates| == 0 then prev else UpdateAll(UpdateUser(prev, updates[0]), updates[1..])
  }

  /** Updates never lose a field: every field of the starting profile survives any sequence of updates. */
  lemma {:induction false} UpdatesKeepKeys(prev: Profile, updates: seq<Profile>)
    ensures prev.Keys <= UpdateAll(prev, updates).Keys
    decreases |updates|
  {
    if |updates| > 0 {
      UpdatesKeepKeys(UpdateUser(prev, updates[0]), updates[1..]);
    }
  }

  /** Whatever screens have merged into it, the profile still holds every default field. */
  lemma ProfileKeepsDefaultFields(updates: seq<Profile>)
    ensures DefaultKeys <= UpdateAll(DefaultUser(), updates).Keys
  {
    UpdatesKeepKeys(DefaultUser(), updates);
  }
}
