/**
 * The client's list reconciliation after the server answers: replace the
 * element(s) carrying the updated review's `_id`, and drop every element
 * carrying a deleted `_id`. (Appending a created review is `s + [r]`.)
 */
module ReviewLists {
  import opened ReviewModel

  /** Number of elements of `s` whose `_id` is `id`. */
  function CountId(s: seq<Review>, id: ReviewId): (n: nat)
    ensures n <= |s|
  {
    if s == [] then 0 else (if s[0].id == id then 1 else 0) + CountId(s[1..], id)
  }

  predicate NoId(s: seq<Review>, id: ReviewId)
  {
    forall i :: 0 <= i < |s| ==> s[i].id != id
  }

  /** `s.map(x => x._id === updated._id ? updated : x)` */
  function ReplaceById(s: seq<Review>, updated: Review): (r: seq<Review>)
    ensures |r| == |s|
    ensures forall i :: 0 <= i < |s| && s[i].id == updated.id ==> r[i] == updated
    ensures forall i :: 0 <= i < |s| && s[i].id != updated.id ==> r[i] == s[i]
  {
    if s == [] then []
    else [if s[0].id == updated.id then updated else s[0]] + ReplaceById(s[1..], updated)
  }

  /** `s.filter(x => x._id !== id)` */
  function RemoveById(s: seq<Review>, id: ReviewId): (r: seq<Review>)
    ensures |r| == |s| - CountId(s, id)
  {
    if s == [] then []
    else if s[0].id == id then RemoveById(s[1..], id)
    else [s[0]] + RemoveById(s[1..], id)
  }

  /** Exactly the elements not carrying `id` survive the filter. */
  lemma {:induction false} RemoveByIdMembers(s: seq<Review>, id: ReviewId)
    ensures forall x :: x in RemoveById(s, id) <==> x in s && x.id != id
  {
    if s != [] {
      RemoveByIdMembers(s[1..], id);
      assert s == [s[0]] + s[1..];
    }
  }

  /** Filtering keeps the relative order: it distributes over concatenation. */
  lemma {:induction false} RemoveByIdAppend(a: seq<Review>, b: seq<Review>, id: ReviewId)
    ensures RemoveById(a + b, id) == RemoveById(a, id) + RemoveById(b, id)
  {
    if a == [] {
      assert a + b == b;
    } else {
      assert (a + b)[1..] == a[1..] + b;
      RemoveByIdAppend(a[1..], b, id);
    }
  }

  /** Removing an `_id` that no element carries leaves the list as it is. */
  lemma {:induction false} RemoveByIdAbsent(s: seq<Review>, id: ReviewId)
    requires NoId(s, id)
    ensures RemoveById(s, id) == s
  {
    if s != [] {
      RemoveByIdAbsent(s[1..], id);
    }
  }

  /** Replacing by an `_id` that no element carries leaves the list as it is. */
  lemma ReplaceByIdAbsent(s: seq<Review>, updated: Review)
    requires NoId(s, updated.id)
    ensures ReplaceById(s, updated) == s
  {
  }

  /** Replacing twice with the same response is replacing once. */
  lemma ReplaceByIdIdempotent(s: seq<Review>, updated: Review)
    ensures ReplaceById(ReplaceById(s, updated), updated) == ReplaceById(s, updated)
  {
  }

  /** After a remove no element carries the id, and a second remove changes nothing. */
  lemma RemoveByIdIdempotent(s: seq<Review>, id: ReviewId)
    ensures NoId(RemoveById(s, id), id)
    ensures RemoveById(RemoveById(s, id), id) == RemoveById(s, id)
  {
  }
}
