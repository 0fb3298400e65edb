/**
 * Index slots: `slots[p]` is the id whose vector sits at position `p` of a
 * FAISS flat index. A re-stored id leaves its earlier vectors behind, so only
 * an id's last slot holds the vector of the record stored for it now.
 */
module Slots {

  /** No later slot belongs to the same id: position `p` holds the id's newest vector. */
  predicate Latest(slots: seq<int>, p: int)
    requires 0 <= p < |slots|
  {
    forall q :: p < q < |slots| ==> slots[q] != slots[p]
  }

  /** An id has at most one newest slot. */
  lemma LatestUnique(slots: seq<int>, p: int, q: int)
    requires 0 <= p < |slots| && 0 <= q < |slots|
    requires Latest(slots, p) && Latest(slots, q) && slots[p] == slots[q]
    ensures p == q
  {
  }

  /** Appending a slot for `id` keeps every other id's newest slot and retires `id`'s old ones. */
  lemma LatestAppend(slots: seq<int>, id: int, p: int)
    requires 0 <= p < |slots|
    ensures Latest(slots + [id], p) <==> Latest(slots, p) && slots[p] != id
  {
    var s := slots + [id];
    if Latest(s, p) {
      forall q | p < q < |slots| ensures slots[q] != slots[p] {
        assert s[q] == slots[q];
      }
      assert s[|slots|] == id;
    }
  }

  /** In a list without repeats every slot is its id's newest. */
  lemma DistinctAllLatest(slots: seq<int>, p: int)
    requires forall i, j :: 0 <= i < j < |slots| ==> slots[i] != slots[j]
    requires 0 <= p < |slots|
    ensures Latest(slots, p)
  {
  }
}
