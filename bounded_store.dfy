/**
 * The capacity-bounded similarity store of databases/vector_database.py.
 *
 * The store keeps three pieces of state:
 *  - `metadata_store`, a dict from int id to {text, title, metadata}; Python
 *    dicts remember key insertion order, which `search_similar` relies on, so
 *    the model keeps the keys' order next to the map;
 *  - `index`, the FAISS flat index, an append-only sequence of vectors that
 *    is only ever replaced wholesale (on eviction);
 *  - `max_vectors`, the capacity.
 *
 * The embedding model is kept abstract: a vector is known only by the text
 * it was computed from. The title (an LLM call) and the FAISS answer (a list
 * of positions) enter as parameters.
 */
module BoundedStore {

  import opened Wrappers
  import opened Values
  import opened Slots

  /** An embedding vector, identified by the text that was embedded. */
  datatype Vec = Embedding(source: string)

  /** One `metadata_store` entry. */
  datatype Record = Record(text: string, title: string, metadata: Metadata)

  /** One search result; the similarity score is not modelled. */
  datatype Hit = Hit(id: int, text: string, title: string, metadata: Metadata, fileId: Value, volumeId: Value)

  /** The store's abstract state: the records, their keys in dict order, the index. */
  datatype State = State(records: map<int, Record>, order: seq<int>, index: seq<Vec>)

  const DefaultMaxVectors: int := 1000
  const DefaultK: int := 5

  predicate Distinct(s: seq<int>)
  {
    forall i, j :: 0 <= i < j < |s| ==> s[i] != s[j]
  }

  /** `order` is `list(records.keys())`: every key exactly once. */
  ghost predicate WellFormed(st: State)
  {
    Distinct(st.order) && (forall k :: k in st.order <==> k in st.records)
  }

  predicate StrictlyIncreasing(s: seq<int>)
  {
    forall i, j :: 0 <= i < j < |s| ==> s[i] < s[j]
  }

  // ---------------------------------------------------------------------
  // Helpers over key sequences
  // ---------------------------------------------------------------------

  /** `min(keys, key=int)`. */
  function Smallest(s: seq<int>): (m: int)
    requires |s| > 0
    ensures m in s
    ensures forall x :: x in s ==> m <= x
  {
    if |s| == 1 then s[0]
    else
      assert s == [s[0]] + s[1..];
      var r := Smallest(s[1..]);
      if s[0] <= r then s[0] else r
  }

  lemma DistinctCons(a: int, s: seq<int>)
    requires a !in s && Distinct(s)
    ensures Distinct([a] + s)
  {
    var t := [a] + s;
    forall i, j | 0 <= i < j < |t| ensures t[i] != t[j] {
      assert t[j] == s[j - 1];
      if i > 0 {
        assert t[i] == s[i - 1];
      }
    }
  }

  /** `s` with `x` taken out, the rest in the same order (`del d[x]` on the keys). */
  function Without(s: seq<int>, x: int): (r: seq<int>)
    ensures |r| <= |s|
    ensures x in s ==> |r| < |s|
  {
    if s == [] then []
    else
      assert s == [s[0]] + s[1..];
      if s[0] == x then Without(s[1..], x) else [s[0]] + Without(s[1..], x)
  }

  /** Taking `x` out keeps exactly the other elements, and changes nothing when `x` is absent. */
  lemma {:induction false} WithoutMembers(s: seq<int>, x: int)
    ensures forall y :: y in Without(s, x) <==> y in s && y != x
    ensures x !in s ==> Without(s, x) == s
  {
    if s != [] {
      assert s == [s[0]] + s[1..];
      WithoutMembers(s[1..], x);
    }
  }

  /** Taking one key out of a duplicate-free list leaves it duplicate-free and one shorter. */
  lemma {:induction false} WithoutDistinct(s: seq<int>, x: int)
    requires Distinct(s)
    ensures Distinct(Without(s, x))
    ensures x in s ==> |Without(s, x)| == |s| - 1
  {
    if s != [] {
      assert s == [s[0]] + s[1..];
      WithoutDistinct(s[1..], x);
      WithoutMembers(s[1..], x);
      if s[0] != x {
        assert s[0] !in s[1..];
        DistinctCons(s[0], Without(s[1..], x));
      }
    }
  }

  lemma IncreasingCons(m: int, s: seq<int>)
    requires StrictlyIncreasing(s) && forall y :: y in s ==> m < y
    ensures StrictlyIncreasing([m] + s)
  {
    var t := [m] + s;
    forall i, j | 0 <= i < j < |t| ensures t[i] < t[j] {
      assert t[j] == s[j - 1] && s[j - 1] in s;
      if i > 0 {
        assert t[i] == s[i - 1];
      }
    }
  }

  /**
   * `sorted(keys, key=int)` for dict keys, which are distinct: repeatedly take
   * the smallest remaining key.
   */
  function SortAscending(s: seq<int>): seq<int>
    decreases |s|
  {
    if s == [] then [] else [Smallest(s)] + SortAscending(Without(s, Smallest(s)))
  }

  /** Sorting keeps exactly the elements. */
  lemma {:induction false} SortAscendingHas(s: seq<int>, y: int)
    ensures y in SortAscending(s) <==> y in s
    decreases |s|
  {
    if s != [] {
      var m := Smallest(s);
      SortAscendingHas(Without(s, m), y);
      WithoutMembers(s, m);
    }
  }

  lemma SortAscendingMembers(s: seq<int>)
    ensures forall y :: y in SortAscending(s) <==> y in s
  {
    forall y {
      SortAscendingHas(s, y);
    }
  }

  /** Sorting a duplicate-free list gives a strictly increasing list of the same length. */
  lemma {:induction false} SortAscendingIncreasing(s: seq<int>)
    requires Distinct(s)
    ensures StrictlyIncreasing(SortAscending(s))
    ensures |SortAscending(s)| == |s|
    decreases |s|
  {
    if s != [] {
      var m := Smallest(s);
      WithoutDistinct(s, m);
      WithoutMembers(s, m);
      SortAscendingIncreasing(Without(s, m));
      SortAscendingMembers(Without(s, m));
      IncreasingCons(m, SortAscending(Without(s, m)));
    }
  }

  /** A duplicate-free sequence has as many elements as the set of its elements. */
  lemma {:induction false} DistinctCard(s: seq<int>)
    requires Distinct(s)
    ensures |set x | x in s| == |s|
  {
    if s != [] {
      DistinctCard(s[1..]);
      assert (set x | x in s) == (set x | x in s[1..]) + {s[0]};
      assert s[0] !in s[1..];
    }
  }

  /** In a well-formed state the key order has one entry per record. */
  lemma OrderLength(st: State)
    requires WellFormed(st)
    ensures |st.order| == |st.records|
  {
    DistinctCard(st.order);
    assert (set x | x in st.order) == st.records.Keys;
  }

  /** The vectors of `ids`, re-embedded from each record's text, in the order of `ids`. */
  function Reembed(records: map<int, Record>, ids: seq<int>): (r: seq<Vec>)
    requires forall i :: 0 <= i < |ids| ==> ids[i] in records
    ensures |r| == |ids|
    ensures forall i :: 0 <= i < |ids| ==> r[i] == Embedding(records[ids[i]].text)
  {
    if ids == [] then []
    else Reembed(records, ids[..|ids| - 1]) + [Embedding(records[ids[|ids| - 1]].text)]
  }

  // ---------------------------------------------------------------------
  // The operations, as functions of the state
  // ---------------------------------------------------------------------

  /**
   * `_remove_oldest_vector`: drop the record with the smallest id and, unless
   * that emptied the store, rebuild the index by re-embedding the remaining
   * records' TEXT in ascending id order.
   */
  function Evict(st: State): (r: State)
    requires WellFormed(st)
    ensures st.records == map[] ==> r == st
  {
    if st.records == map[] then st
    else
      OrderLength(st);
      var oldest := Smallest(st.order);
      var records := st.records - {oldest};
      var order := Without(st.order, oldest);
      WithoutMembers(st.order, oldest);
      State(records, order, Rebuilt(records, order))
  }

  lemma SortedIdKnown(records: map<int, Record>, order: seq<int>, i: int)
    requires forall k :: k in order ==> k in records
    requires 0 <= i < |SortAscending(order)|
    ensures SortAscending(order)[i] in records
  {
    var ids := SortAscending(order);
    assert ids[i] in ids;
    SortAscendingHas(order, ids[i]);
  }

  lemma SortedIdsKnown(records: map<int, Record>, order: seq<int>)
    requires forall k :: k in order ==> k in records
    ensures forall i :: 0 <= i < |SortAscending(order)| ==> SortAscending(order)[i] in records
  {
    forall i | 0 <= i < |SortAscending(order)| ensures SortAscending(order)[i] in records {
      SortedIdKnown(records, order, i);
    }
  }

  /** The rebuilt index: the records re-embedded in ascending id order, or empty. */
  function Rebuilt(records: map<int, Record>, order: seq<int>): seq<Vec>
    requires forall k :: k in order ==> k in records
  {
    var ids := SortAscending(order);
    SortedIdsKnown(records, order);
    if |records| > 0 then Reembed(records, ids) else []
  }

  /**
   * `store_vector`: evict first if the store is at capacity, then append the
   * embedding of the TITLE to the index and set the record. A dict overwrite
   * keeps the key's place in the order; a new key goes last.
   */
  function Store(st: State, maxVectors: int, id: int, text: string, title: string, metadata: Metadata): State
    requires WellFormed(st)
  {
    var e := if |st.records| >= maxVectors then Evict(st) else st;
    State(e.records[id := Record(text, title, metadata)],
          if id in e.records then e.order else e.order + [id],
          e.index + [Embedding(title)])
  }

  /** `get_vector`. */
  function Get(st: State, id: int): (r: Result<Record, Fault>)
    ensures r.Ok? <==> id in st.records
    ensures r.Ok? ==> r.value == st.records[id]
    ensures r.Err? ==> r.error == KeyError(Int(id))
  {
    if id !in st.records then Err(KeyError(Int(id))) else Ok(st.records[id])
  }

  /** `delete_vector`: the record and its key go; the index is not touched. */
  function Delete(st: State, id: int): Result<State, Fault>
  {
    if id !in st.records then Err(KeyError(Int(id)))
    else Ok(State(st.records - {id}, Without(st.order, id), st.index))
  }

  /** The `k` handed to FAISS: `min(k, len(metadata_store))`. */
  function ClampK(k: int, n: int): int
  {
    if k < n then k else n
  }

  /** A FAISS position is used only if it is not -1 and below the key count. */
  predicate Usable(p: int, n: int)
  {
    p != -1 && p < n
  }

  /** The result built for position `p`: the record whose key is `order[p]`. */
  function HitAt(st: State, p: int): (h: Hit)
    requires WellFormed(st) && 0 <= p < |st.order|
    ensures h.id in st.records
  {
    HitOf(st.records, st.order[p])
  }

  /** The result dict built for the record stored under `id`. */
  function HitOf(records: map<int, Record>, id: int): Hit
    requires id in records
  {
    var rec := records[id];
    Hit(id, rec.text, rec.title, rec.metadata,
        GetOr(rec.metadata, "fileId", Null), GetOr(rec.metadata, "volumeId", Null))
  }

  /** The positions FAISS returned that the loop keeps, in order. */
  function Kept(labels: seq<int>, n: int): seq<int>
  {
    if labels == [] then []
    else Kept(labels[..|labels| - 1], n) + (if Usable(labels[|labels| - 1], n) then [labels[|labels| - 1]] else [])
  }

  /** The results loop of `search_similar` over the FAISS positions `labels`. */
  function Hits(st: State, labels: seq<int>): seq<Hit>
    requires WellFormed(st)
    requires forall i :: 0 <= i < |labels| ==> labels[i] >= -1
  {
    if labels == [] then []
    else
      var p := labels[|labels| - 1];
      Hits(st, labels[..|labels| - 1]) + (if Usable(p, |st.order|) then [HitAt(st, p)] else [])
  }

  /**
   * `search_similar`: an empty store answers `[]`; otherwise FAISS is asked for
   * `min(k, len)` neighbours. `failed` stands for an exception from the
   * embedding or FAISS, which the method turns into `[]`; a non-positive
   * clamped `k` leaves FAISS with nothing to return (or makes it raise), so
   * the answer is `[]` as well.
   */
  function Search(st: State, k: int, labels: seq<int>, failed: bool): seq<Hit>
    requires WellFormed(st)
    requires forall i :: 0 <= i < |labels| ==> labels[i] >= -1
  {
    if |st.records| == 0 || failed || ClampK(k, |st.records|) <= 0 then []
    else Hits(st, labels)
  }

  // ---------------------------------------------------------------------
  // Properties
  // ---------------------------------------------------------------------

  /** Eviction keeps the state well formed and never grows the index past the records. */
  lemma EvictWellFormed(st: State)
    requires WellFormed(st)
    ensures WellFormed(Evict(st))
    ensures st.records != map[] ==> |Evict(st).index| == |Evict(st).records|
  {
    if st.records != map[] {
      OrderLength(st);
      var m := Smallest(st.order);
      var records := st.records - {m};
      var order := Without(st.order, m);
      WithoutDistinct(st.order, m);
      WithoutMembers(st.order, m);
      var e := State(records, order, Rebuilt(records, order));
      assert Evict(st) == e;
      assert WellFormed(e);
      OrderLength(e);
      if |records| > 0 {
        SortAscendingIncreasing(order);
      }
    }
  }

  /**
   * Eviction on a non-empty store removes exactly one key, that key is the
   * smallest one, and every other record is kept as it was.
   */
  lemma EvictRemovesSmallest(st: State)
    requires WellFormed(st) && st.records != map[]
    ensures |Evict(st).records| == |st.records| - 1
    ensures forall k :: k in st.records && k !in Evict(st).records ==> forall j :: j in st.records ==> k <= j
    ensures forall k :: k in Evict(st).records ==> k in st.records && Evict(st).records[k] == st.records[k]
  {
    OrderLength(st);
    var m := Smallest(st.order);
    assert m in st.records;
  }

  /**
   * After eviction the index holds one vector per remaining record, re-embedded
   * from the record's text, in strictly ascending id order; when the last
   * record was evicted the index is empty.
   */
  lemma EvictRebuildsIndex(st: State)
    requires WellFormed(st) && st.records != map[]
    ensures var e := Evict(st);
      var ids := SortAscending(e.order);
      && StrictlyIncreasing(ids)
      && (forall k :: k in ids <==> k in e.records)
      && |e.index| == |ids| == |e.records|
      && (forall i :: 0 <= i < |ids| ==> e.index[i] == Embedding(e.records[ids[i]].text))
  {
    var e := Evict(st);
    EvictWellFormed(st);
    OrderLength(e);
    SortAscendingIncreasing(e.order);
    SortAscendingMembers(e.order);
  }

  /** Storing keeps the state well formed. */
  lemma StoreWellFormed(st: State, maxVectors: int, id: int, text: string, title: string, metadata: Metadata)
    requires WellFormed(st)
    ensures WellFormed(Store(st, maxVectors, id, text, title, metadata))
  {
    EvictWellFormed(st);
  }

  /**
   * `store_vector` maps `id` to {text, title, metadata}, overwriting any earlier
   * record, and adds exactly one vector, the title's embedding, at the end of
   * the index.
   */
  lemma StoreSetsRecord(st: State, maxVectors: int, id: int, text: string, title: string, metadata: Metadata)
    requires WellFormed(st)
    ensures var r := Store(st, maxVectors, id, text, title, metadata);
      && id in r.records && r.records[id] == Record(text, title, metadata)
      && |r.index| > 0 && r.index[|r.index| - 1] == Embedding(title)
  {
  }

  /**
   * Below capacity nothing but `id` changes: the other records stay, the index
   * grows by one vector, and `id` keeps its place if present or goes last.
   */
  lemma StoreBelowCapacity(st: State, maxVectors: int, id: int, text: string, title: string, metadata: Metadata)
    requires WellFormed(st) && |st.records| < maxVectors
    ensures var r := Store(st, maxVectors, id, text, title, metadata);
      && (forall k :: k != id ==> (k in r.records <==> k in st.records))
      && (forall k :: k != id && k in st.records ==> r.records[k] == st.records[k])
      && r.index == st.index + [Embedding(title)]
      && (id in st.records ==> r.order == st.order)
      && (id !in st.records ==> r.order == st.order + [id])
  {
  }

  /** Storing an id that is not present makes it the newest key, evicting or not. */
  lemma StoreFreshIdIsNewest(st: State, maxVectors: int, id: int, text: string, title: string, metadata: Metadata)
    requires WellFormed(st) && id !in st.records
    ensures var r := Store(st, maxVectors, id, text, title, metadata);
      |r.order| > 0 && r.order[|r.order| - 1] == id
  {
    if |st.records| >= maxVectors && st.records != map[] {
      EvictRemovesSmallest(st);
    }
  }

  /** With `max_vectors` at least 1, a store within capacity stays within capacity. */
  lemma StoreCapacity(st: State, maxVectors: int, id: int, text: string, title: string, metadata: Metadata)
    requires WellFormed(st) && 1 <= maxVectors && |st.records| <= maxVectors
    ensures |Store(st, maxVectors, id, text, title, metadata).records| <= maxVectors
  {
    var e := if |st.records| >= maxVectors then Evict(st) else st;
    if |st.records| >= maxVectors {
      EvictRemovesSmallest(st);
    }
    assert |e.records| < maxVectors;
    assert e.records[id := Record(text, title, metadata)].Keys == e.records.Keys + {id};
  }

  /**
   * At capacity, storing an id that is already present still evicts: the store
   * shrinks by one when the evicted id is another one.
   */
  lemma StoreAtCapacityOverwriteShrinks(st: State, maxVectors: int, id: int, text: string, title: string, metadata: Metadata)
    requires WellFormed(st) && |st.records| == maxVectors && id in st.records
    requires exists j :: j in st.records && j < id
    ensures |Store(st, maxVectors, id, text, title, metadata).records| == maxVectors - 1
  {
    EvictRemovesSmallest(st);
    var e := Evict(st);
    var j :| j in st.records && j < id;
    assert id in e.records;
    assert e.records[id := Record(text, title, metadata)].Keys == e.records.Keys;
  }

  /** An index that is at least as long as the key list stays so under every operation. */
  lemma StoreKeepsIndexCover(st: State, maxVectors: int, id: int, text: string, title: string, metadata: Metadata)
    requires WellFormed(st) && |st.index| >= |st.records|
    ensures var r := Store(st, maxVectors, id, text, title, metadata); |r.index| >= |r.records|
  {
    var e := if |st.records| >= maxVectors then Evict(st) else st;
    assert |e.index| >= |e.records| by {
      if |st.records| >= maxVectors {
        EvictWellFormed(st);
      }
    }
    var recs := e.records[id := Record(text, title, metadata)];
    assert |recs| <= |e.records| + 1 by {
      assert recs.Keys == e.records.Keys + {id};
    }
  }

  /** `delete_vector` raises KeyError exactly for an absent id. */
  lemma DeleteErrors(st: State, id: int)
    ensures Delete(st, id).Err? <==> id !in st.records
    ensures Delete(st, id).Err? ==> Delete(st, id).error == KeyError(Int(id))
  {
  }

  /**
   * A successful delete removes only `id` and leaves the index as it was, so on
   * a store whose index matched its records the index now has one vector more
   * than there are records.
   */
  lemma DeleteLeavesIndex(st: State, id: int)
    requires WellFormed(st) && id in st.records
    ensures var r := Delete(st, id);
      && r.Ok?
      && WellFormed(r.value)
      && r.value.index == st.index
      && (forall k :: k in r.value.records <==> k in st.records && k != id)
      && (forall k :: k in r.value.records ==> r.value.records[k] == st.records[k])
      && (|st.index| == |st.records| ==> |r.value.index| == |r.value.records| + 1)
  {
    WithoutDistinct(st.order, id);
    WithoutMembers(st.order, id);
    var r := Delete(st, id).value;
    OrderLength(st);
    OrderLength(r);
  }

  /** Deleting, successfully or not, leaves a well-formed state. */
  lemma DeleteWellFormed(st: State, id: int)
    requires WellFormed(st)
    ensures Delete(st, id).Ok? ==> WellFormed(Delete(st, id).value)
  {
    WithoutDistinct(st.order, id);
    WithoutMembers(st.order, id);
  }

  lemma {:induction false} KeptBounds(labels: seq<int>, n: int)
    ensures |Kept(labels, n)| <= |labels|
    ensures forall i :: 0 <= i < |Kept(labels, n)| ==> Usable(Kept(labels, n)[i], n)
    ensures forall i :: 0 <= i < |Kept(labels, n)| ==> Kept(labels, n)[i] in labels
  {
    if labels != [] {
      KeptBounds(labels[..|labels| - 1], n);
    }
  }

  /**
   * The results are exactly the kept positions, each mapped to the key at that
   * position in the dict's key order, with the record's fields copied and
   * `fileId`/`volumeId` read from the metadata, `None` when missing.
   */
  lemma {:induction false} HitsFollowKept(st: State, labels: seq<int>)
    requires WellFormed(st)
    requires forall i :: 0 <= i < |labels| ==> labels[i] >= -1
    ensures var hs := Hits(st, labels); var ps := Kept(labels, |st.order|);
      && |hs| == |ps|
      && forall j :: 0 <= j < |hs| ==>
           && 0 <= ps[j] < |st.order|
           && hs[j].id == st.order[ps[j]]
           && hs[j].id in st.records
           && hs[j].text == st.records[hs[j].id].text
           && hs[j].title == st.records[hs[j].id].title
           && hs[j].metadata == st.records[hs[j].id].metadata
           && hs[j].fileId == GetOr(st.records[hs[j].id].metadata, "fileId", Null)
           && hs[j].volumeId == GetOr(st.records[hs[j].id].metadata, "volumeId", Null)
  {
    if labels != [] {
      HitsFollowKept(st, labels[..|labels| - 1]);
      KeptBounds(labels, |st.order|);
    }
  }

  /** An empty store answers every search with `[]`. */
  lemma SearchEmptyStore(st: State, k: int, labels: seq<int>, failed: bool)
    requires WellFormed(st) && st.records == map[]
    requires forall i :: 0 <= i < |labels| ==> labels[i] >= -1
    ensures Search(st, k, labels, failed) == []
  {
  }

  /**
   * When FAISS answers with `min(k, len)` positions, as it does, the search
   * returns at most `min(k, len)` results, and every result is a current key.
   */
  lemma SearchBounded(st: State, k: int, labels: seq<int>, failed: bool)
    requires WellFormed(st)
    requires forall i :: 0 <= i < |labels| ==> labels[i] >= -1
    requires |labels| <= ClampK(k, |st.records|)
    ensures |Search(st, k, labels, failed)| <= ClampK(k, |st.records|)
    ensures |Search(st, k, labels, failed)| <= |st.records|
    ensures forall h :: h in Search(st, k, labels, failed) ==> h.id in st.records
  {
    HitsFollowKept(st, labels);
    KeptBounds(labels, |st.order|);
    var hs := Search(st, k, labels, failed);
    forall h | h in hs ensures h.id in st.records {
      var j :| 0 <= j < |hs| && hs[j] == h;
    }
  }

  /**
   * The rebuilt index lists vectors in ascending id order, but positions are
   * mapped back to ids through the dict's insertion order. Stored as 9, 5, 7
   * with capacity 3, storing 1 evicts 5 and leaves keys [9, 7, 1] while the
   * index starts with 7's vector: position 0 is then reported as id 9.
   */
  lemma RebuildOrderDiffersFromKeyOrder(md: Metadata)
    ensures var s3 := ThreeStored(md);
      && WellFormed(s3)
      && var s4 := Store(s3, 3, 1, "one", "t1", md);
      && WellFormed(s4)
      && s4.order == [9, 7, 1]
      && s4.index == [Embedding("seven"), Embedding("nine"), Embedding("t1")]
      && HitAt(s4, 0).id == 9
      && HitAt(s4, 0).text == "nine"
  {
    var s3 := ThreeStored(md);
    EvictThreeStored(md);
    ThreeStoredWellFormed(md);
    StoreWellFormed(s3, 3, 1, "one", "t1", md);
    var s4 := Store(s3, 3, 1, "one", "t1", md);
    assert s4.records[9] == Record("nine", "t9", md);
  }

  lemma ThreeStoredWellFormed(md: Metadata)
    ensures WellFormed(ThreeStored(md))
    ensures |ThreeStored(md).records| == 3
  {
    var s3 := ThreeStored(md);
    assert s3.records.Keys == {9, 5, 7};
  }

  lemma SortNineSeven()
    ensures SortAscending([9, 7]) == [7, 9]
  {
    assert Smallest([9, 7]) == 7;
    assert Without([9, 7], 7) == [9];
    assert SortAscending([9]) == [9];
  }

  lemma EvictFiveFirst()
    ensures Smallest([9, 5, 7]) == 5 && Without([9, 5, 7], 5) == [9, 7]
  {
  }

  /** The store after `store_vector` of ids 9, 5 and 7, in that order. */
  function ThreeStored(md: Metadata): State
  {
    State(map[9 := Record("nine", "t9", md), 5 := Record("five", "t5", md), 7 := Record("seven", "t7", md)],
          [9, 5, 7], [Embedding("t9"), Embedding("t5"), Embedding("t7")])
  }

  /** The two records left once 5 is evicted from `ThreeStored(md)`. */
  function NineSeven(md: Metadata): map<int, Record>
  {
    map[9 := Record("nine", "t9", md), 7 := Record("seven", "t7", md)]
  }

  lemma EvictThreeStored(md: Metadata)
    ensures WellFormed(ThreeStored(md))
    ensures Evict(ThreeStored(md)) == State(NineSeven(md), [9, 7], [Embedding("seven"), Embedding("nine")])
  {
    ThreeStoredWellFormed(md);
    EvictFiveFirst();
    SortNineSeven();
    NineSevenLeft(md);
    RebuiltNineSeven(md);
  }

  lemma NineSevenLeft(md: Metadata)
    ensures ThreeStored(md).records - {5} == NineSeven(md)
    ensures |NineSeven(md)| == 2
  {
    assert NineSeven(md).Keys == {9, 7};
  }

  lemma RebuiltNineSeven(md: Metadata)
    ensures Rebuilt(NineSeven(md), [9, 7]) == [Embedding("seven"), Embedding("nine")]
  {
    SortNineSeven();
    var records := NineSeven(md);
    assert records.Keys == {9, 7};
    RebuiltBySorted(records, [9, 7], [7, 9]);
    var r := Reembed(records, [7, 9]);
    assert |r| == 2 && r[0] == Embedding("seven") && r[1] == Embedding("nine");
  }

  lemma RebuiltBySorted(records: map<int, Record>, order: seq<int>, ids: seq<int>)
    requires forall k :: k in order ==> k in records
    requires |records| > 0 && SortAscending(order) == ids
    ensures forall i :: 0 <= i < |ids| ==> ids[i] in records
    ensures Rebuilt(records, order) == Reembed(records, ids)
  {
    SortedIdsKnown(records, order);
  }

  // ---------------------------------------------------------------------
  // The corrected store: remember the id of every index position
  // ---------------------------------------------------------------------

  /** The store with `slots[p]`, the id whose vector sits at index position `p`. */
  datatype Tracked = Tracked(st: State, slots: seq<int>)

  /** The vector belongs to the record: its title's embedding (from a store) or its text's (from a rebuild). */
  predicate Owns(rec: Record, v: Vec)
  {
    v == Embedding(rec.title) || v == Embedding(rec.text)
  }

  /** One slot per vector, and every current id's newest slot holds one of that record's vectors. */
  ghost predicate TrackedValid(t: Tracked)
  {
    && WellFormed(t.st)
    && |t.slots| == |t.st.index|
    && forall p :: 0 <= p < |t.slots| && t.slots[p] in t.st.records && Latest(t.slots, p) ==>
         Owns(t.st.records[t.slots[p]], t.st.index[p])
  }

  /** The corrected eviction: the rebuilt index is listed with its ids, the remaining ids in ascending order. */
  function TrackedEvict(t: Tracked): (r: Tracked)
    requires WellFormed(t.st)
    ensures r.st == Evict(t.st)
  {
    if t.st.records == map[] then t
    else
      var e := Evict(t.st);
      Tracked(e, if |e.records| > 0 then SortAscending(e.order) else [])
  }

  /** The corrected `store_vector`: the same new state, and the new vector's slot remembers its id. */
  function TrackedStore(t: Tracked, maxVectors: int, id: int, text: string, title: string, metadata: Metadata): (r: Tracked)
    requires WellFormed(t.st)
    ensures r.st == Store(t.st, maxVectors, id, text, title, metadata)
  {
    var e := if |t.st.records| >= maxVectors then TrackedEvict(t) else t;
    Tracked(Store(t.st, maxVectors, id, text, title, metadata), e.slots + [id])
  }

  /** The corrected `delete_vector`: the same new state; the id's slots stay but no longer resolve. */
  function TrackedDelete(t: Tracked, id: int): (r: Result<Tracked, Fault>)
    ensures r.Err? <==> id !in t.st.records
    ensures r.Err? ==> r.error == KeyError(Int(id))
    ensures r.Ok? ==> Delete(t.st, id) == Ok(r.value.st) && r.value.slots == t.slots
  {
    match Delete(t.st, id)
    case Err(e) => Err(e)
    case Ok(st) => Ok(Tracked(st, t.slots))
  }

  /**
   * The corrected results loop: position `p` is mapped to `slots[p]`, and used
   * only when it is that id's newest slot and the id is still stored.
   */
  function TrackedHits(t: Tracked, labels: seq<int>): (hits: seq<Hit>)
    ensures |hits| <= |labels|
    ensures forall h :: h in hits ==> h.id in t.st.records && h == HitOf(t.st.records, h.id)
    ensures forall h :: h in hits ==>
      exists p :: p in labels && 0 <= p < |t.slots| && t.slots[p] == h.id && Latest(t.slots, p)
  {
    if labels == [] then []
    else
      var p := labels[|labels| - 1];
      var rest := TrackedHits(t, labels[..|labels| - 1]);
      assert forall x :: x in labels[..|labels| - 1] ==> x in labels;
      if 0 <= p < |t.slots| && t.slots[p] in t.st.records && Latest(t.slots, p) then rest + [HitOf(t.st.records, t.slots[p])]
      else rest
  }

  /** The corrected `search_similar`: the same guards, the corrected results loop. */
  function TrackedSearch(t: Tracked, k: int, labels: seq<int>, failed: bool): (r: seq<Hit>)
    ensures |t.st.records| == 0 || failed ==> r == []
    ensures forall h :: h in r ==> h in TrackedHits(t, labels)
  {
    if |t.st.records| == 0 || failed || ClampK(k, |t.st.records|) <= 0 then []
    else TrackedHits(t, labels)
  }

  /** Eviction keeps the slots aligned: after a rebuild every slot holds its record's text embedding. */
  lemma TrackedEvictValid(t: Tracked)
    requires TrackedValid(t)
    ensures TrackedValid(TrackedEvict(t))
    ensures t.st.records != map[] ==> var r := TrackedEvict(t);
      forall p :: 0 <= p < |r.slots| ==>
        r.slots[p] in r.st.records && Latest(r.slots, p) && r.st.index[p] == Embedding(r.st.records[r.slots[p]].text)
  {
    if t.st.records != map[] {
      EvictWellFormed(t.st);
      var e := Evict(t.st);
      if |e.records| > 0 {
        var ids := SortAscending(e.order);
        RebuiltBySorted(e.records, e.order, ids);
        SortAscendingIncreasing(e.order);
        forall p | 0 <= p < |ids| ensures Latest(ids, p) {
          DistinctAllLatest(ids, p);
        }
      }
    }
  }

  /**
   * Storing keeps the slots aligned; the new slot is the id's newest and holds
   * the title's embedding, and the id's older slots are retired.
   */
  lemma TrackedStoreValid(t: Tracked, maxVectors: int, id: int, text: string, title: string, metadata: Metadata)
    requires TrackedValid(t)
    ensures var r := TrackedStore(t, maxVectors, id, text, title, metadata);
      && TrackedValid(r)
      && r.slots[|r.slots| - 1] == id && Latest(r.slots, |r.slots| - 1)
      && r.st.index[|r.slots| - 1] == Embedding(title)
  {
    var e := if |t.st.records| >= maxVectors then TrackedEvict(t) else t;
    if |t.st.records| >= maxVectors {
      TrackedEvictValid(t);
    }
    StoreWellFormed(t.st, maxVectors, id, text, title, metadata);
    var r := TrackedStore(t, maxVectors, id, text, title, metadata);
    assert r.st.index == e.st.index + [Embedding(title)];
    assert r.st.records == e.st.records[id := Record(text, title, metadata)];
    forall p | 0 <= p < |r.slots| && r.slots[p] in r.st.records && Latest(r.slots, p)
      ensures Owns(r.st.records[r.slots[p]], r.st.index[p])
    {
      if p < |e.slots| {
        LatestAppend(e.slots, id, p);
        assert r.slots[p] == e.slots[p] && r.st.index[p] == e.st.index[p];
      }
    }
  }

  /** Deleting keeps the slots aligned. */
  lemma TrackedDeleteValid(t: Tracked, id: int)
    requires TrackedValid(t)
    ensures TrackedDelete(t, id).Ok? ==> TrackedValid(TrackedDelete(t, id).value)
  {
    DeleteWellFormed(t.st, id);
  }

  /**
   * In an aligned store every result is a current record, found through a
   * position whose vector is that record's own.
   */
  lemma TrackedHitsAligned(t: Tracked, labels: seq<int>)
    requires TrackedValid(t)
    ensures forall h :: h in TrackedHits(t, labels) ==>
      h.id in t.st.records && exists p :: 0 <= p < |t.slots| && t.slots[p] == h.id && Owns(t.st.records[h.id], t.st.index[p])
  {
    forall h | h in TrackedHits(t, labels)
      ensures exists p :: 0 <= p < |t.slots| && t.slots[p] == h.id && Owns(t.st.records[h.id], t.st.index[p])
    {
      var p :| p in labels && 0 <= p < |t.slots| && t.slots[p] == h.id && Latest(t.slots, p);
      assert Owns(t.st.records[t.slots[p]], t.st.index[p]);
    }
  }

  /**
   * The repair of `RebuildOrderDiffersFromKeyOrder`: after a store that
   * evicts, position 0 is reported as the smallest remaining id, the record
   * whose text the rebuilt index embeds first (unless that id is the one just
   * re-stored, whose old slot is then retired).
   */
  lemma TrackedRebuildFirst(t: Tracked, maxVectors: int, id: int, text: string, title: string, metadata: Metadata)
    requires TrackedValid(t) && |t.st.records| >= maxVectors && |t.st.records| >= 2
    ensures var e := Evict(t.st);
      var r := TrackedStore(t, maxVectors, id, text, title, metadata);
      && |e.order| > 0 && |r.slots| > 1
      && r.slots[0] == SortAscending(e.order)[0] && r.slots[0] in e.records
      && r.st.index[0] == Embedding(e.records[r.slots[0]].text)
      && (r.slots[0] != id ==> TrackedHits(r, [0]) == [HitOf(r.st.records, r.slots[0])])
  {
    var e := Evict(t.st);
    var te := TrackedEvict(t);
    EvictWellFormed(t.st);
    OrderLength(e);
    TrackedEvictValid(t);
    TrackedStoreFull(t, maxVectors, id, text, title, metadata);
    var r := TrackedStore(t, maxVectors, id, text, title, metadata);
    assert |e.records| == |t.st.records| - 1 by { OrderLength(t.st); }
    assert te.slots == SortAscending(e.order);
    assert r.st.index == e.index + [Embedding(title)];
    if r.slots[0] != id {
      LatestAppend(te.slots, id, 0);
      assert r.st.records[r.slots[0]] == e.records[r.slots[0]];
      TrackedHitsFirst(r, r.slots[0]);
    }
  }

  /** At capacity the new slot list is the rebuilt one followed by the stored id. */
  lemma TrackedStoreFull(t: Tracked, maxVectors: int, id: int, text: string, title: string, metadata: Metadata)
    requires WellFormed(t.st) && |t.st.records| >= maxVectors
    ensures TrackedStore(t, maxVectors, id, text, title, metadata).slots == TrackedEvict(t).slots + [id]
  {
  }

  /** Position 0 alone, when it is the newest slot of a stored id, reports that id. */
  lemma TrackedHitsFirst(t: Tracked, id: int)
    requires |t.slots| > 0 && t.slots[0] == id && id in t.st.records && Latest(t.slots, 0)
    ensures TrackedHits(t, [0]) == [HitOf(t.st.records, id)]
  {
    assert [0][..0] == [];
  }

  // ---------------------------------------------------------------------
  // The store as the Python object
  // ---------------------------------------------------------------------

  /** The rebuild loop of `_remove_oldest_vector`: embed each listed record's text in turn. */
  method ReembedAll(records: map<int, Record>, ids: seq<int>) returns (vectors: seq<Vec>)
    requires forall i :: 0 <= i < |ids| ==> ids[i] in records
    ensures vectors == Reembed(records, ids)
  {
    vectors := [];
    var i := 0;
    while i < |ids|
      invariant 0 <= i <= |ids|
      invariant vectors == Reembed(records, ids[..i])
    {
      assert ids[..i + 1][..i] == ids[..i];
      vectors := vectors + [Embedding(records[ids[i]].text)];
      i := i + 1;
    }
    assert ids[..i] == ids;
  }

  class VectorDatabase {
    /** `metadata_store`. */
    var records: map<int, Record>
    /** `list(metadata_store.keys())`. */
    var keyOrder: seq<int>
    /** The FAISS flat index. */
    var index: seq<Vec>
    /** `max_vectors`. */
    const maxVectors: int

    function Snapshot(): State
      reads this
    {
      State(records, keyOrder, index)
    }

    ghost predicate Valid()
      reads this
    {
      WellFormed(Snapshot()) && |index| >= |records|
    }

    /** A fresh database (no files on disk): an empty store and an empty index. */
    constructor (maxVectors: int)
      ensures Valid()
      ensures this.maxVectors == maxVectors
      ensures records == map[] && keyOrder == [] && index == []
    {
      this.maxVectors := maxVectors;
      records := map[];
      keyOrder := [];
      index := [];
    }

    /** `_remove_oldest_vector`. */
    method RemoveOldestVector()
      requires Valid()
      modifies this
      ensures Valid()
      ensures Snapshot() == Evict(old(Snapshot()))
    {
      if records == map[] {
        return;
      }
      ghost var st := Snapshot();
      OrderLength(st);
      EvictWellFormed(st);
      ghost var target := Evict(st);
      assert WellFormed(target) && |target.index| == |target.records|;
      var oldest := Smallest(keyOrder);
      var remainingRecords := records - {oldest};
      var remainingKeys := Without(keyOrder, oldest);
      assert target.records == remainingRecords && target.order == remainingKeys;
      var rebuilt: seq<Vec> := [];
      if |remainingRecords| > 0 {
        WithoutMembers(keyOrder, oldest);
        SortedIdsKnown(remainingRecords, remainingKeys);
        rebuilt := ReembedAll(remainingRecords, SortAscending(remainingKeys));
      }
      assert rebuilt == Rebuilt(remainingRecords, remainingKeys);
      assert target == State(remainingRecords, remainingKeys, rebuilt);
      records, keyOrder, index := remainingRecords, remainingKeys, rebuilt;
      assert Snapshot() == target && old(Snapshot()) == st;
    }

    /** `store_vector(id, text, metadata)`, with `title` the title generated for `text`. */
    method StoreVector(id: int, text: string, title: string, metadata: Metadata)
      requires Valid()
      modifies this
      ensures Valid()
      ensures Snapshot() == Store(old(Snapshot()), maxVectors, id, text, title, metadata)
    {
      StoreKeepsIndexCover(Snapshot(), maxVectors, id, text, title, metadata);
      StoreWellFormed(Snapshot(), maxVectors, id, text, title, metadata);
      if |records| >= maxVectors {
        RemoveOldestVector();
      }
      index := index + [Embedding(title)];
      if id !in records {
        keyOrder := keyOrder + [id];
      }
      records := records[id := Record(text, title, metadata)];
    }

    /** `get_vector`: the record, or KeyError; nothing changes either way. */
    method GetVector(id: int) returns (r: Result<Record, Fault>)
      ensures id in records ==> r == Ok(records[id])
      ensures id !in records ==> r == Err(KeyError(Int(id)))
    {
      if id !in records {
        return Err(KeyError(Int(id)));
      }
      return Ok(records[id]);
    }

    /** `delete_vector`: KeyError on an absent id, else only that key goes; the index stays. */
    method DeleteVector(id: int) returns (r: Result<(), Fault>)
      requires Valid()
      modifies this
      ensures Valid()
      ensures r.Err? <==> id !in old(records)
      ensures r.Err? ==> r.error == KeyError(Int(id)) && Snapshot() == old(Snapshot())
      ensures r.Ok? ==> Delete(old(Snapshot()), id) == Ok(Snapshot())
    {
      if id !in records {
        return Err(KeyError(Int(id)));
      }
      WithoutDistinct(keyOrder, id);
      WithoutMembers(keyOrder, id);
      records := records - {id};
      keyOrder := Without(keyOrder, id);
      return Ok(());
    }

    /**
     * `search_similar(query, k)`, with FAISS's answer `labels` for the query and
     * `failed` standing for an exception in embedding or search.
     */
    method SearchSimilar(k: int, labels: seq<int>, failed: bool) returns (results: seq<Hit>)
      requires Valid()
      requires forall i :: 0 <= i < |labels| ==> labels[i] >= -1
      ensures results == Search(Snapshot(), k, labels, failed)
      ensures |results| <= |labels|
      ensures forall h :: h in results ==> h.id in records
    {
      if |records| == 0 {
        return [];
      }
      if failed {
        return [];
      }
      var clamped := ClampK(k, |records|);
      if clamped <= 0 {
        return [];
      }
      OrderLength(Snapshot());
      results := [];
      var i := 0;
      while i < |labels|
        invariant 0 <= i <= |labels|
        invariant results == Hits(Snapshot(), labels[..i])
        invariant |results| <= i
        invariant forall h :: h in results ==> h.id in records
      {
        assert labels[..i + 1][..i] == labels[..i];
        var p := labels[i];
        if p != -1 && p < |keyOrder| {
          var id := keyOrder[p];
          var rec := records[id];
          results := results + [Hit(id, rec.text, rec.title, rec.metadata,
                                    GetOr(rec.metadata, "fileId", Null), GetOr(rec.metadata, "volumeId", Null))];
        }
        i := i + 1;
      }
      assert labels[..i] == labels;
    }
  }
}
