/**
 * The audio-track store: a JSON file mapping a media identifier to the
 * list of audio languages last recorded for it. Loading forgives every
 * problem with the file by reading it as the empty map; saving rewrites
 * the whole file.
 */
module AudioStore {
  import opened Wrappers
  import opened PlexCatalog

  /**
   * What loading finds on disk: no file, a file that cannot be read, a
   * file holding only whitespace, text that is not JSON, or a JSON object
   * from identifiers to language lists.
   */
  datatype DbFile = Missing | Unreadable | Blank | Malformed | Json(entries: map<string, seq<string>>)

  /** What `_load_audio_db` returns for a file. */
  function Loaded(f: DbFile): map<string, seq<string>> {
    if f.Json? then f.entries else map[]
  }

  /** `audio_db.get(id, [])` on a freshly loaded store. */
  function Previous(f: DbFile, id: string): seq<string> {
    var db := Loaded(f);
    if id in db then db[id] else []
  }

  /** The file after storing `languages` under `key` on top of what loading `f` gives. */
  function Stored(f: DbFile, key: string, languages: seq<string>): DbFile {
    Json(Loaded(f)[key := languages])
  }

  /** The object key `json.dump` writes for a Python key: `None` becomes `"null"`. */
  function JsonKey(id: Option<string>): string {
    if id.Some? then id.value else "null"
  }

  /** The file behind the store; `file` is what is on disk now. */
  class AudioTracksDb {
    var file: DbFile

    constructor (file: DbFile)
      ensures this.file == file
    {
      this.file := file;
    }

    /**
     * `_load_audio_db`: the stored map when the file holds one; the empty
     * map when the file is missing, unreadable, blank or not JSON.
     */
    method Load() returns (db: map<string, seq<string>>)
      ensures file.Json? ==> db == file.entries
      ensures !file.Json? ==> db == map[]
    {
      match file
      case Json(entries) =>
        db := entries;
      case _ =>
        db := map[];
    }

    /** `_save_audio_db`: the file now holds exactly `db`. */
    method Save(db: map<string, seq<string>>)
      modifies this
      ensures file == Json(db)
    {
      file := Json(db);
    }

    /**
     * `save_languages_on_db`: with no media or no languages, returns
     * `None` and leaves the file alone; otherwise reloads the store, sets
     * the entry of `id` to `languages`, rewrites the file and returns
     * `(title, languages)`.
     */
    method SaveLanguagesOnDb(title: Option<string>, media: Option<Media>, languages: Option<seq<string>>, id: Option<string>)
      returns (r: Option<(Option<string>, seq<string>)>)
      modifies this
      ensures media.None? || languages.None? || languages.value == [] ==> r.None? && file == old(file)
      ensures media.Some? && languages.Some? && languages.value != [] ==>
        r == Some((title, languages.value)) && file == Stored(old(file), JsonKey(id), languages.value)
    {
      if media.None? || languages.None? || languages.value == [] {
        return None;
      }
      var db := Load();
      db := db[JsonKey(id) := languages.value];
      Save(db);
      return Some((title, languages.value));
    }
  }

  /**
   * Storing overwrites one key: afterwards that key holds the new list,
   * and every other key of a well-formed store keeps its entry.
   */
  lemma StoredOverwritesOneKey(f: DbFile, key: string, languages: seq<string>)
    ensures Previous(Stored(f, key, languages), key) == languages
    ensures forall other :: other != key ==> Previous(Stored(f, key, languages), other) == Previous(f, other)
  {
  }

  /**
   * A store that does not load (missing, unreadable, blank or corrupt)
   * loses all of its content on the first save: the new file holds the
   * one entry just written.
   */
  lemma UnloadableStoreIsReplaced(f: DbFile, key: string, languages: seq<string>)
    requires !f.Json?
    ensures Stored(f, key, languages) == Json(map[key := languages])
  {
  }

  /** An empty stored list reads the same as an absent key. */
  lemma EmptyEntryReadsAsAbsent(db: map<string, seq<string>>, id: string)
    ensures Previous(Json(db[id := []]), id) == Previous(Json(db - {id}), id) == []
  {
  }
}
