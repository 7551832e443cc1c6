/** Searching a sequence for the first element with a property, as JavaScript's `find` and `indexOf` do. */
module Sequences {
  import opened Wrappers

  /** The first position at or after `from` whose element satisfies `P`, if there is one. */
  function FindFrom<T>(s: seq<T>, P: T -> bool, from: nat): (r: Option<nat>)
    requires from <= |s|
    ensures r.Some? ==> from <= r.value < |s| && P(s[r.value])
    ensures r.Some? ==> forall k :: from <= k < r.value ==> !P(s[k])
    ensures r.None? ==> forall k :: from <= k < |s| ==> !P(s[k])
    decreases |s| - from
  {
    if from == |s| then None
    else if P(s[from]) then Some(from)
    else FindFrom(s, P, from + 1)
  }

  /** A position that satisfies `P`, with none before it from `from` on, is the one the search finds. */
  lemma FindFromFinds<T>(s: seq<T>, P: T -> bool, from: nat, at: nat)
    requires from <= at < |s|
    requires P(s[at])
    requires forall k :: from <= k < at ==> !P(s[k])
    ensures FindFrom(s, P, from) == Some(at)
  {
  }
}
