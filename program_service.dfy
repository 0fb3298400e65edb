/**
 * services/vector_db_service.py: program (file) records kept in the bounded
 * similarity store, keyed by file id, with the description
 * "<file type> <context>" as the stored text.
 */
module ProgramService {

  import opened Wrappers
  import opened Values
  import BS = BoundedStore

  const DefaultStorageDir: string := "vector_db"

  /** `f"{file_type} {context}"`. */
  function ProgramText(fileType: string, context: string): (r: string)
    ensures |r| == |fileType| + 1 + |context|
    ensures r[..|fileType|] == fileType && r[|fileType|] == ' ' && r[|fileType| + 1..] == context
  {
    fileType + " " + context
  }

  /** The metadata dict stored with a program. */
  function ProgramMetadata(fileId: int, fileType: string, context: string, volumeId: Value): (m: Metadata)
    ensures m.Keys == {"type", "context", "fileId", "volumeId"}
    ensures m["type"] == Str(fileType) && m["context"] == Str(context)
    ensures m["fileId"] == Int(fileId) && m["volumeId"] == volumeId
  {
    map["type" := Str(fileType), "context" := Str(context), "fileId" := Int(fileId), "volumeId" := volumeId]
  }

  /** The store after the "delete the old record if there is one" step. */
  function WithoutOld(st: BS.State, fileId: int): BS.State
  {
    match BS.Delete(st, fileId)
    case Ok(s) => s
    case Err(_) => st
  }

  /** `store_program_info` as a function of the store's state. */
  function StoreProgram(st: BS.State, maxVectors: int, fileId: int, fileType: string, context: string, volumeId: Value, title: string): BS.State
    requires BS.WellFormed(st)
  {
    BS.DeleteWellFormed(st, fileId);
    BS.Store(WithoutOld(st, fileId), maxVectors, fileId, ProgramText(fileType, context), title,
             ProgramMetadata(fileId, fileType, context, volumeId))
  }

  /** `get_program_info`: the record's metadata; a record always has one, so the `{}` default never applies. */
  function ProgramInfo(st: BS.State, fileId: int): (r: Result<Metadata, Fault>)
    ensures r.Ok? <==> fileId in st.records
    ensures r.Ok? ==> r.value == st.records[fileId].metadata
    ensures r.Err? ==> r.error == KeyError(Int(fileId))
  {
    match BS.Get(st, fileId)
    case Ok(rec) => Ok(rec.metadata)
    case Err(e) => Err(e)
  }

  // ---------------------------------------------------------------------
  // Properties
  // ---------------------------------------------------------------------

  /**
   * After `store_program_info` the program reads back with exactly the four
   * metadata fields, and, whether or not it was stored before, its id is the
   * newest key.
   */
  lemma StoreProgramReadsBack(st: BS.State, maxVectors: int, fileId: int, fileType: string, context: string, volumeId: Value, title: string)
    requires BS.WellFormed(st)
    ensures var r := StoreProgram(st, maxVectors, fileId, fileType, context, volumeId, title);
      && ProgramInfo(r, fileId) == Ok(ProgramMetadata(fileId, fileType, context, volumeId))
      && r.records[fileId] == BS.Record(ProgramText(fileType, context), title, ProgramMetadata(fileId, fileType, context, volumeId))
      && |r.order| > 0 && r.order[|r.order| - 1] == fileId
  {
    var w := WithoutOld(st, fileId);
    BS.DeleteWellFormed(st, fileId);
    assert fileId !in w.records;
    var text, md := ProgramText(fileType, context), ProgramMetadata(fileId, fileType, context, volumeId);
    BS.StoreFreshIdIsNewest(w, maxVectors, fileId, text, title, md);
    BS.StoreSetsRecord(w, maxVectors, fileId, text, title, md);
  }

  /** Replace-on-store keeps the store's key order and key set in step. */
  lemma StoreProgramWellFormed(st: BS.State, maxVectors: int, fileId: int, fileType: string, context: string, volumeId: Value, title: string)
    requires BS.WellFormed(st)
    ensures BS.WellFormed(StoreProgram(st, maxVectors, fileId, fileType, context, volumeId, title))
  {
    BS.DeleteWellFormed(st, fileId);
    BS.StoreWellFormed(WithoutOld(st, fileId), maxVectors, fileId, ProgramText(fileType, context), title,
                       ProgramMetadata(fileId, fileType, context, volumeId));
  }

  /**
   * Below capacity, replacing a program keeps every other program and only
   * moves the replaced id to the end of the key order.
   */
  lemma ReplaceKeepsOthers(st: BS.State, maxVectors: int, fileId: int, fileType: string, context: string, volumeId: Value, title: string)
    requires BS.WellFormed(st) && |st.records| < maxVectors
    ensures var r := StoreProgram(st, maxVectors, fileId, fileType, context, volumeId, title);
      && (forall k :: k != fileId ==> (k in r.records <==> k in st.records))
      && (forall k :: k != fileId && k in st.records ==> r.records[k] == st.records[k])
      && r.order == BS.Without(st.order, fileId) + [fileId]
  {
    BS.DeleteWellFormed(st, fileId);
    BS.WithoutMembers(st.order, fileId);
    var w := WithoutOld(st, fileId);
    BS.OrderLength(st);
    BS.OrderLength(w);
    assert |w.records| <= |st.records|;
  }

  /**
   * Replacing an existing program never evicts anything else: with the store
   * full, the old record is deleted first, so the store stays full and
   * every other program survives.
   */
  lemma ReplaceAtCapacityEvictsNothing(st: BS.State, maxVectors: int, fileId: int, fileType: string, context: string, volumeId: Value, title: string)
    requires BS.WellFormed(st) && |st.records| == maxVectors && fileId in st.records
    ensures var r := StoreProgram(st, maxVectors, fileId, fileType, context, volumeId, title);
      && |r.records| == maxVectors
      && (forall k :: k in st.records ==> k in r.records)
  {
    BS.DeleteWellFormed(st, fileId);
    var w := WithoutOld(st, fileId);
    assert |w.records| == maxVectors - 1 by {
      assert st.records.Keys == w.records.Keys + {fileId};
    }
    var r := StoreProgram(st, maxVectors, fileId, fileType, context, volumeId, title);
    assert r.records.Keys == w.records.Keys + {fileId};
  }

  // ---------------------------------------------------------------------
  // The service object
  // ---------------------------------------------------------------------

  class VectorDBService {
    const storageDir: string
    /** `_vector_db`. */
    const db: BS.VectorDatabase

    ghost predicate Valid()
      reads this, db
    {
      db.Valid()
    }

    /** `__init__`: a fresh bounded store (no files on disk yet). */
    constructor (storageDir: string, maxVectors: int)
      ensures Valid() && fresh(db)
      ensures db.maxVectors == maxVectors && db.records == map[]
    {
      this.storageDir := storageDir;
      db := new BS.VectorDatabase(maxVectors);
    }

    /** `store_program_info`, with `title` the title generated for the program's text. */
    method StoreProgramInfo(fileId: int, fileType: string, context: string, volumeId: Value, title: string)
      requires Valid()
      modifies db
      ensures Valid()
      ensures db.Snapshot() == StoreProgram(old(db.Snapshot()), db.maxVectors, fileId, fileType, context, volumeId, title)
    {
      var existing := db.GetVector(fileId);
      if existing.Ok? {
        var _ := db.DeleteVector(fileId);
      }
      db.StoreVector(fileId, ProgramText(fileType, context), title, ProgramMetadata(fileId, fileType, context, volumeId));
    }

    /** `get_program_info`. */
    method GetProgramInfo(fileId: int) returns (r: Result<Metadata, Fault>)
      requires Valid()
      ensures r == ProgramInfo(db.Snapshot(), fileId)
    {
      var v := db.GetVector(fileId);
      match v
      case Ok(rec) => return Ok(rec.metadata);
      case Err(e) => return Err(e);
    }

    /** `delete_program_info`: KeyError from the store propagates. */
    method DeleteProgramInfo(fileId: int) returns (r: Result<(), Fault>)
      requires Valid()
      modifies db
      ensures Valid()
      ensures r.Err? <==> fileId !in old(db.records)
      ensures r.Ok? ==> BS.Delete(old(db.Snapshot()), fileId) == Ok(db.Snapshot())
      ensures r.Err? ==> db.Snapshot() == old(db.Snapshot())
    {
      r := db.DeleteVector(fileId);
    }

    /** `search_similar_programs`: the store's search, passed through. */
    method SearchSimilarPrograms(k: int, labels: seq<int>, failed: bool) returns (results: seq<BS.Hit>)
      requires Valid()
      requires forall i :: 0 <= i < |labels| ==> labels[i] >= -1
      ensures results == BS.Search(db.Snapshot(), k, labels, failed)
    {
      results := db.SearchSimilar(k, labels, failed);
    }
  }
}
