/**
 * The unbounded similarity store of vector_database.py: a dict from int id
 * to {text, metadata} next to a FAISS flat index of the texts' embeddings.
 * `search_similar` looks each FAISS position up in the dict AS AN ID, which
 * is right only when ids happen to equal insertion positions; the corrected
 * search at the end of this module keeps the id of every index slot.
 */
module UnboundedStore {

  import opened Wrappers
  import opened Values
  import opened Slots

  /** An embedding vector, identified by the text that was embedded. */
  datatype Vec = Embedding(source: string)

  /** One `metadata_store` entry. */
  datatype Entry = Entry(text: string, metadata: Metadata)

  datatype State = State(records: map<int, Entry>, index: seq<Vec>)

  const DefaultDimension: int := 768
  const DefaultK: int := 5

  /** `store_vector`: embed the text, append it to the index, set the entry. */
  function Store(st: State, id: int, text: string, metadata: Metadata): State
  {
    State(st.records[id := Entry(text, metadata)], st.index + [Embedding(text)])
  }

  /** `get_vector`. */
  function Get(st: State, id: int): (r: Result<Entry, Fault>)
    ensures r.Ok? <==> id in st.records
    ensures r.Ok? ==> r.value == st.records[id]
    ensures r.Err? ==> r.error == KeyError(Int(id))
  {
    if id !in st.records then Err(KeyError(Int(id))) else Ok(st.records[id])
  }

  /** `delete_vector`: the entry goes, the index keeps its vector. */
  function Delete(st: State, id: int): Result<State, Fault>
  {
    if id !in st.records then Err(KeyError(Int(id)))
    else Ok(State(st.records - {id}, st.index))
  }

  /**
   * The results loop of `search_similar` over the FAISS positions `labels`:
   * -1 is skipped, any other position is read as a dict key, and a missing
   * key raises KeyError out of the method (nothing catches it).
   */
  function Lookup(records: map<int, Entry>, labels: seq<int>): Result<seq<Entry>, Fault>
  {
    if labels == [] then Ok([])
    else
      match Lookup(records, labels[..|labels| - 1])
      case Err(e) => Err(e)
      case Ok(found) =>
        var p := labels[|labels| - 1];
        if p == -1 then Ok(found)
        else if p !in records then Err(KeyError(Int(p)))
        else Ok(found + [records[p]])
  }

  /** `search_similar`; `failed` stands for an exception from the embedding model or FAISS. */
  function Search(st: State, labels: seq<int>, failed: bool): Result<seq<Entry>, Fault>
  {
    if failed then Err(ExternalError("search")) else Lookup(st.records, labels)
  }

  /** The positions that are not -1, in order. */
  function Found(labels: seq<int>): seq<int>
  {
    if labels == [] then []
    else Found(labels[..|labels| - 1]) + (if labels[|labels| - 1] == -1 then [] else [labels[|labels| - 1]])
  }

  // ---------------------------------------------------------------------
  // Properties
  // ---------------------------------------------------------------------

  /** A stored entry reads back; every other id reads as before. */
  lemma StoreThenGet(st: State, id: int, text: string, metadata: Metadata, other: int)
    ensures Get(Store(st, id, text, metadata), id) == Ok(Entry(text, metadata))
    ensures other != id ==> Get(Store(st, id, text, metadata), other) == Get(st, other)
  {
  }

  /** Each store adds one vector, the text's embedding, at the end of the index. */
  lemma StoreAppends(st: State, id: int, text: string, metadata: Metadata)
    ensures |Store(st, id, text, metadata).index| == |st.index| + 1
    ensures Store(st, id, text, metadata).index[|st.index|] == Embedding(text)
    ensures Store(st, id, text, metadata).index[..|st.index|] == st.index
  {
  }

  /** After a delete the id reads as KeyError and the index is unchanged. */
  lemma DeleteThenGet(st: State, id: int)
    requires id in st.records
    ensures Delete(st, id).Ok?
    ensures Get(Delete(st, id).value, id) == Err(KeyError(Int(id)))
    ensures Delete(st, id).value.index == st.index
  {
  }

  /**
   * The search succeeds exactly when every position other than -1 is also a
   * dict key, and then returns those keys' entries in FAISS's order.
   */
  lemma {:induction false} LookupOkIff(records: map<int, Entry>, labels: seq<int>)
    ensures Lookup(records, labels).Ok? <==> forall i :: 0 <= i < |labels| && labels[i] != -1 ==> labels[i] in records
    ensures Lookup(records, labels).Ok? ==>
      var ps := Found(labels);
      |Lookup(records, labels).value| == |ps|
      && forall j :: 0 <= j < |ps| ==> ps[j] in records && Lookup(records, labels).value[j] == records[ps[j]]
  {
    if labels != [] {
      var init := labels[..|labels| - 1];
      LookupOkIff(records, init);
      FoundMembers(init);
      FoundMembers(labels);
      if Lookup(records, labels).Ok? {
        assert Lookup(records, init).Ok?;
      } else if Lookup(records, init).Ok? {
        var p := labels[|labels| - 1];
        assert p != -1 && p !in records;
      } else {
        var i :| 0 <= i < |init| && init[i] != -1 && init[i] !in records;
        assert labels[i] == init[i];
      }
    }
  }

  /** The kept positions are at most as many as FAISS returned (k), none is -1, and each is one of them. */
  lemma {:induction false} FoundMembers(labels: seq<int>)
    ensures |Found(labels)| <= |labels|
    ensures forall j :: 0 <= j < |Found(labels)| ==> Found(labels)[j] != -1 && Found(labels)[j] in labels
  {
    if labels != [] {
      var init := labels[..|labels| - 1];
      FoundMembers(init);
      forall j | 0 <= j < |Found(labels)|
        ensures Found(labels)[j] != -1 && Found(labels)[j] in labels
      {
        if j < |Found(init)| {
          assert Found(labels)[j] == Found(init)[j];
          assert Found(init)[j] in init;
        }
      }
    }
  }

  /**
   * Positions are not ids: one vector stored under id 7 is FAISS position 0,
   * and reading position 0 as a key raises KeyError(0).
   */
  lemma PositionIsNotId(metadata: Metadata)
    ensures var st := Store(State(map[], []), 7, "text", metadata);
      && st.index == [Embedding("text")]
      && Search(st, [0], false) == Err(KeyError(Int(0)))
  {
    var st := Store(State(map[], []), 7, "text", metadata);
    assert Lookup(st.records, [0][..0]) == Ok([]);
  }

  // ---------------------------------------------------------------------
  // The corrected search: remember the id of every index slot
  // ---------------------------------------------------------------------

  /** The store with `slots[p]`, the id whose text was embedded at index position `p`. */
  datatype Aligned = Aligned(records: map<int, Entry>, index: seq<Vec>, slots: seq<int>)

  /**
   * One slot per vector, and every current id's newest slot holds the
   * embedding of the text stored for it now.
   */
  predicate AlignedValid(a: Aligned)
  {
    && |a.slots| == |a.index|
    && forall p :: 0 <= p < |a.slots| && a.slots[p] in a.records && Latest(a.slots, p) ==>
         a.index[p] == Embedding(a.records[a.slots[p]].text)
  }

  /** The corrected `store_vector`: the new vector's slot remembers its id. */
  function AlignedStore(a: Aligned, id: int, text: string, metadata: Metadata): (r: Aligned)
    requires AlignedValid(a)
    ensures AlignedValid(r)
  {
    var r := Aligned(a.records[id := Entry(text, metadata)], a.index + [Embedding(text)], a.slots + [id]);
    forall p | 0 <= p < |r.slots| && r.slots[p] in r.records && Latest(r.slots, p)
      ensures r.index[p] == Embedding(r.records[r.slots[p]].text)
    {
      if p < |a.slots| {
        LatestAppend(a.slots, id, p);
        assert r.slots[p] == a.slots[p] && r.index[p] == a.index[p];
      }
    }
    r
  }

  /** The corrected `delete_vector`: the entry goes, its slots stay but no longer resolve. */
  function AlignedDelete(a: Aligned, id: int): (r: Result<Aligned, Fault>)
    requires AlignedValid(a)
    ensures r.Err? <==> id !in a.records
    ensures r.Err? ==> r.error == KeyError(Int(id))
    ensures r.Ok? ==> AlignedValid(r.value) && r.value.records == a.records - {id}
  {
    if id !in a.records then Err(KeyError(Int(id)))
    else Ok(Aligned(a.records - {id}, a.index, a.slots))
  }

  /**
   * Positions map to ids through `slots`. A position is used only when it is
   * its id's newest slot and that id is still stored; any other position
   * (stale, deleted, outside the index) is skipped rather than raising.
   */
  function AlignedLookup(a: Aligned, labels: seq<int>): (hits: seq<(int, Entry)>)
    ensures |hits| <= |labels|
    ensures forall h :: h in hits ==> h.0 in a.records && h.1 == a.records[h.0]
    ensures forall h :: h in hits ==>
      exists p :: p in labels && 0 <= p < |a.slots| && a.slots[p] == h.0 && Latest(a.slots, p)
  {
    if labels == [] then []
    else
      var p := labels[|labels| - 1];
      var rest := AlignedLookup(a, labels[..|labels| - 1]);
      assert forall x :: x in labels[..|labels| - 1] ==> x in labels;
      if 0 <= p < |a.slots| && a.slots[p] in a.records && Latest(a.slots, p) then rest + [(a.slots[p], a.records[a.slots[p]])]
      else rest
  }

  /** The corrected search never raises KeyError: it fails only when the embedding or FAISS does. */
  function AlignedSearch(a: Aligned, labels: seq<int>, failed: bool): (r: Result<seq<(int, Entry)>, Fault>)
    ensures r.Err? <==> failed
  {
    if failed then Err(ExternalError("search")) else Ok(AlignedLookup(a, labels))
  }

  /**
   * After a store the new slot is the id's newest, holds the embedding of its
   * text and resolves to the entry just stored; every older slot of the same
   * id is retired.
   */
  lemma AlignedSlotsEmbedText(a: Aligned, id: int, text: string, metadata: Metadata)
    requires AlignedValid(a)
    ensures var r := AlignedStore(a, id, text, metadata);
      && r.slots[|a.slots|] == id && Latest(r.slots, |a.slots|)
      && r.index[|a.slots|] == Embedding(r.records[id].text)
      && AlignedLookup(r, [|a.slots|]) == [(id, Entry(text, metadata))]
      && (forall p :: 0 <= p < |a.slots| && a.slots[p] == id ==> !Latest(r.slots, p))
  {
    var r := AlignedStore(a, id, text, metadata);
    forall p | 0 <= p < |a.slots| && a.slots[p] == id ensures !Latest(r.slots, p) {
      LatestAppend(a.slots, id, p);
    }
    assert AlignedLookup(r, [|a.slots|][..0]) == [];
  }

  /** Every reported id is found through a slot whose vector embeds the reported entry's text. */
  lemma AlignedHitsMatch(a: Aligned, labels: seq<int>)
    requires AlignedValid(a)
    ensures forall h :: h in AlignedLookup(a, labels) ==>
      exists p :: 0 <= p < |a.slots| && a.slots[p] == h.0 && a.index[p] == Embedding(h.1.text)
  {
    forall h | h in AlignedLookup(a, labels)
      ensures exists p :: 0 <= p < |a.slots| && a.slots[p] == h.0 && a.index[p] == Embedding(h.1.text)
    {
      var p :| p in labels && 0 <= p < |a.slots| && a.slots[p] == h.0 && Latest(a.slots, p);
      assert a.index[p] == Embedding(h.1.text);
    }
  }

  /** No id is reported twice. */
  predicate DistinctIds(hits: seq<(int, Entry)>)
  {
    forall i, j :: 0 <= i < j < |hits| ==> hits[i].0 != hits[j].0
  }

  /** Distinct FAISS positions give distinct ids: a re-stored id is reported at most once. */
  lemma {:induction false} AlignedLookupDistinct(a: Aligned, labels: seq<int>)
    requires forall i, j :: 0 <= i < j < |labels| ==> labels[i] != labels[j]
    ensures DistinctIds(AlignedLookup(a, labels))
  {
    if labels != [] {
      var init := labels[..|labels| - 1];
      var p := labels[|labels| - 1];
      assert forall i, j :: 0 <= i < j < |init| ==> init[i] != init[j] by {
        forall i, j | 0 <= i < j < |init| ensures init[i] != init[j] {
          assert init[i] == labels[i] && init[j] == labels[j];
        }
      }
      AlignedLookupDistinct(a, init);
      var rest := AlignedLookup(a, init);
      var hits := AlignedLookup(a, labels);
      if 0 <= p < |a.slots| && a.slots[p] in a.records && Latest(a.slots, p) {
        forall i | 0 <= i < |rest| ensures rest[i].0 != a.slots[p] {
          assert rest[i] in rest;
          var q :| q in init && 0 <= q < |a.slots| && a.slots[q] == rest[i].0 && Latest(a.slots, q);
          if rest[i].0 == a.slots[p] {
            LatestUnique(a.slots, p, q);
            assert false;
          }
        }
        assert hits == rest + [(a.slots[p], a.records[a.slots[p]])];
        forall i, j | 0 <= i < j < |hits| ensures hits[i].0 != hits[j].0 {
          if j < |rest| {
            assert hits[i] == rest[i] && hits[j] == rest[j];
          } else {
            assert hits[i] == rest[i];
          }
        }
      } else {
        assert hits == rest;
      }
    }
  }

  /** Storing id 7 twice: only the second slot resolves, and it reports the current entry once. */
  lemma AlignedRestoreReportsOnce(metadata: Metadata)
    ensures var a1 := AlignedStore(Aligned(map[], [], []), 7, "a", metadata);
      var a2 := AlignedStore(a1, 7, "b", metadata);
      && a2.index == [Embedding("a"), Embedding("b")]
      && AlignedLookup(a2, [0, 1]) == [(7, Entry("b", metadata))]
  {
    var a1 := AlignedStore(Aligned(map[], [], []), 7, "a", metadata);
    var a2 := AlignedStore(a1, 7, "b", metadata);
    assert !Latest(a2.slots, 0) by { assert a2.slots[1] == a2.slots[0]; }
    assert Latest(a2.slots, 1);
    assert [0, 1][..1] == [0];
    assert AlignedLookup(a2, [0]) == [] by { assert [0][..0] == []; }
  }

  // ---------------------------------------------------------------------
  // The store as the Python object (as written)
  // ---------------------------------------------------------------------

  class VectorDatabase {
    /** `metadata_store`. */
    var records: map<int, Entry>
    /** The FAISS flat index. */
    var index: seq<Vec>
    /** `dimension`. */
    const dimension: int

    function Snapshot(): State
      reads this
    {
      State(records, index)
    }

    /** `__init__`: an empty index and an empty dict. */
    constructor (dimension: int)
      ensures this.dimension == dimension
      ensures records == map[] && index == []
    {
      this.dimension := dimension;
      records := map[];
      index := [];
    }

    /** `store_vector`. */
    method StoreVector(id: int, text: string, metadata: Metadata)
      modifies this
      ensures Snapshot() == Store(old(Snapshot()), id, text, metadata)
    {
      index := index + [Embedding(text)];
      records := records[id := Entry(text, metadata)];
    }

    /** `get_vector`: nothing changes. */
    method GetVector(id: int) returns (r: Result<Entry, Fault>)
      ensures r == Get(Snapshot(), id)
    {
      if id !in records {
        return Err(KeyError(Int(id)));
      }
      return Ok(records[id]);
    }

    /** `delete_vector`. */
    method DeleteVector(id: int) returns (r: Result<(), Fault>)
      modifies this
      ensures r.Err? <==> id !in old(records)
      ensures r.Err? ==> r.error == KeyError(Int(id)) && Snapshot() == old(Snapshot())
      ensures r.Ok? ==> Delete(old(Snapshot()), id) == Ok(Snapshot())
    {
      if id !in records {
        return Err(KeyError(Int(id)));
      }
      records := records - {id};
      return Ok(());
    }

    /** `search_similar`: the loop over FAISS's positions; the store does not change. */
    method SearchSimilar(labels: seq<int>, failed: bool) returns (r: Result<seq<Entry>, Fault>)
      ensures r == Search(Snapshot(), labels, failed)
    {
      if failed {
        return Err(ExternalError("search"));
      }
      var results: seq<Entry> := [];
      var i := 0;
      while i < |labels|
        invariant 0 <= i <= |labels|
        invariant Lookup(records, labels[..i]) == Ok(results)
      {
        assert labels[..i + 1][..i] == labels[..i];
        var p := labels[i];
        if p != -1 {
          if p !in records {
            assert Lookup(records, labels[..i + 1]) == Err(KeyError(Int(p)));
            LookupStaysErr(records, labels, i + 1);
            return Err(KeyError(Int(p)));
          }
          results := results + [records[p]];
        }
        i := i + 1;
      }
      assert labels[..i] == labels;
      return Ok(results);
    }
  }

  /** Once a prefix of the positions raises, the whole loop raises the same error. */
  lemma {:induction false} LookupStaysErr(records: map<int, Entry>, labels: seq<int>, n: nat)
    requires n <= |labels| && Lookup(records, labels[..n]).Err?
    ensures Lookup(records, labels) == Lookup(records, labels[..n])
    decreases |labels| - n
  {
    if n < |labels| {
      assert labels[..n + 1][..n] == labels[..n];
      LookupStaysErr(records, labels, n + 1);
    } else {
      assert labels[..n] == labels;
    }
  }
}
