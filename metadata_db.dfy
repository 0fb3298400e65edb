/**
 * The pickled key-value store of db/model.py: a dict from int id to
 * {text, metadata}, written back to its file after every change.
 *
 * The file is modelled by the ghost field `persisted`, the dict as last
 * written; reading it at construction is the `loaded` parameter.
 */
module MetadataStore {

  import opened Wrappers
  import opened Values

  datatype Entry = Entry(text: string, metadata: Metadata)

  const DefaultSavePath: string := "metadata.pkl"

  class MetadataDB {
    /** `metadata_store`. */
    var store: map<int, Entry>
    /** The contents of the pickle file at `save_path`. */
    ghost var persisted: map<int, Entry>
    const savePath: string

    /** The file always holds what memory holds between calls. */
    ghost predicate Valid()
      reads this
    {
      persisted == store
    }

    /** `__init__`: the file's dict when the file exists (`loaded`), else an empty dict. */
    constructor (savePath: string, loaded: Option<map<int, Entry>>)
      ensures Valid()
      ensures this.savePath == savePath
      ensures loaded.Some? ==> store == loaded.value
      ensures loaded.None? ==> store == map[]
    {
      this.savePath := savePath;
      var initial := if loaded.Some? then loaded.value else map[];
      store := initial;
      persisted := initial;
    }

    /** `_persist`: write the dict to the file. */
    method Persist()
      modifies this
      ensures store == old(store) && persisted == store
    {
      persisted := store;
    }

    /** `save`: set the entry and persist. */
    method Save(id: int, text: string, metadata: Metadata)
      requires Valid()
      modifies this
      ensures Valid()
      ensures store == old(store)[id := Entry(text, metadata)]
    {
      store := store[id := Entry(text, metadata)];
      Persist();
    }

    /** `get`: the entry, or KeyError; nothing changes. */
    method Get(id: int) returns (r: Result<Entry, Fault>)
      ensures r.Ok? <==> id in store
      ensures r.Ok? ==> r.value == store[id]
      ensures r.Err? ==> r.error == KeyError(Int(id))
    {
      if id !in store {
        return Err(KeyError(Int(id)));
      }
      return Ok(store[id]);
    }

    /** `delete`: remove and persist when present; an absent id is silently ignored and nothing is written. */
    method Delete(id: int)
      requires Valid()
      modifies this
      ensures Valid()
      ensures store == old(store) - {id}
      ensures id !in old(store) ==> unchanged(this)
    {
      if id in store {
        store := store - {id};
        Persist();
      }
    }

    /** `all`: the whole dict (as a value; the caller sharing the live dict is not modelled). */
    method All() returns (everything: map<int, Entry>)
      ensures everything == store
    {
      return store;
    }
  }

  /** A saved entry reads back, and deleting twice is deleting once. */
  method SaveGetDelete(db: MetadataDB, id: int, text: string, metadata: Metadata)
    requires db.Valid()
    modifies db
    ensures db.Valid()
    ensures id !in db.store
    ensures db.store == old(db.store) - {id}
  {
    db.Save(id, text, metadata);
    var r := db.Get(id);
    assert r == Ok(Entry(text, metadata));
    db.Delete(id);
    db.Delete(id);
  }
}
