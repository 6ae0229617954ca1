/**
 * The slot rule of `enroll_fingerprint`: a new fingerprint is stored under the
 * smallest sensor slot in 1..127 that no enrolled fingerprint uses, or under
 * slot 1 when nothing is enrolled. With every slot taken the rule has no
 * answer (Python's `min` of an empty set raises), modelled here as `None`.
 * The ids come from stored records and may lie outside 1..127.
 */
module Enrolment {
  import opened Optional

  const MaxId := 127

  /** `id` is a sensor slot that no enrolled fingerprint occupies. */
  predicate Free(usedIds: seq<int>, id: int) {
    1 <= id <= MaxId && id !in usedIds
  }

  /** The smallest free slot in `k..127`, if there is one. */
  function SmallestFreeFrom(usedIds: seq<int>, k: int): (r: Option<int>)
    requires 1 <= k <= MaxId + 1
    ensures r.Some? ==> k <= r.value && Free(usedIds, r.value)
    ensures r.Some? ==> forall j :: k <= j < r.value ==> j in usedIds
    ensures r.None? ==> forall j :: k <= j <= MaxId ==> j in usedIds
    decreases MaxId + 1 - k
  {
    if k > MaxId then None
    else if k !in usedIds then Some(k)
    else SmallestFreeFrom(usedIds, k + 1)
  }

  /** `next_id`: slot 1 for an empty record list, otherwise the minimum of
      the free slots; `None` exactly when all 127 slots are taken. */
  function NextId(usedIds: seq<int>): (r: Option<int>)
    ensures usedIds == [] ==> r == Some(1)
    ensures r.Some? ==> Free(usedIds, r.value)
    ensures r.Some? ==> forall j :: 1 <= j < r.value ==> !Free(usedIds, j)
    ensures r.None? <==> forall j :: 1 <= j <= MaxId ==> j in usedIds
  {
    if usedIds == [] then Some(1) else SmallestFreeFrom(usedIds, 1)
  }

  /** The answer depends only on which ids are recorded, not on their order
      or on repeats. */
  lemma NextIdIgnoresOrder(u: seq<int>, v: seq<int>)
    requires forall x :: x in u <==> x in v
    ensures NextId(u) == NextId(v)
  {
    var a, b := NextId(u), NextId(v);
    if a.Some? && b.Some? {
      assert Free(v, a.value) && Free(u, b.value);
    }
  }

  /** Enrolling at the slot `next_id` chose makes the following enrolment
      choose a strictly larger slot, or none: successive enrolments never
      reuse a slot. */
  lemma EnrolmentAdvances(usedIds: seq<int>)
    requires NextId(usedIds).Some?
    ensures var n := NextId(usedIds).value;
      NextId(usedIds + [n]).Some? ==> NextId(usedIds + [n]).value > n
  {
    var n := NextId(usedIds).value;
    var m := NextId(usedIds + [n]);
    if m.Some? {
      assert m.value !in usedIds && m.value != n;
      assert Free(usedIds, m.value);
    }
  }
}
