/** The content cache of the backend (`src-tauri/src/cache.rs`): three
    string-to-string tables kept in one JSON file. The file is an abstract
    store holding the last value written; each `update_*` runs under one
    lock and is one atomic step here. */
module Cache {
  import opened Wrappers

  /** `CachedData`. */
  datatype CachedData = CachedData(
    artistInfo: map<string, string>,
    songContext: map<string, string>,
    lyrics: map<string, string>)

  /** `CachedData::default()`: three empty tables. */
  const EmptyCache := CachedData(map[], map[], map[])

  /** The three tables, named. */
  datatype Table = ArtistInfo | SongContext | Lyrics

  /** The table `t` of `c`. */
  function TableOf(c: CachedData, t: Table): map<string, string> {
    match t
    case ArtistInfo => c.artistInfo
    case SongContext => c.songContext
    case Lyrics => c.lyrics
  }

  /** `load_cache`: the stored contents, or three empty tables when the
      file is missing or does not parse. */
  function LoadCache(file: FileState<CachedData>): (c: CachedData)
    ensures file.Holds? ==> c == file.contents
    ensures !file.Holds? ==> forall t :: TableOf(c, t) == map[]
  {
    if file.Holds? then file.contents else EmptyCache
  }

  /** `c` with `key -> value` inserted into table `t`. Looking the key up
      there gives the new value (an existing entry is overwritten); every
      other key of that table and both other tables are as before. */
  function WithEntry(c: CachedData, t: Table, key: string, value: string): (r: CachedData)
    ensures key in TableOf(r, t) && TableOf(r, t)[key] == value
    ensures forall k :: k != key ==> (k in TableOf(r, t) <==> k in TableOf(c, t))
    ensures forall k :: k != key && k in TableOf(c, t) ==> TableOf(r, t)[k] == TableOf(c, t)[k]
    ensures forall u :: u != t ==> TableOf(r, u) == TableOf(c, u)
  {
    match t
    case ArtistInfo => c.(artistInfo := c.artistInfo[key := value])
    case SongContext => c.(songContext := c.songContext[key := value])
    case Lyrics => c.(lyrics := c.lyrics[key := value])
  }

  /** Inserting the same entry twice is inserting it once. */
  lemma WithEntryIdempotent(c: CachedData, t: Table, key: string, value: string)
    ensures WithEntry(WithEntry(c, t, key, value), t, key, value) == WithEntry(c, t, key, value)
  {
    var once := WithEntry(c, t, key, value);
    assert TableOf(WithEntry(once, t, key, value), t) == TableOf(once, t);
  }

  /** Entries of different tables do not interfere: the order of two
      inserts into different tables does not matter. */
  lemma WithEntryCommutes(c: CachedData, t: Table, u: Table, k1: string, v1: string, k2: string, v2: string)
    requires t != u
    ensures WithEntry(WithEntry(c, t, k1, v1), u, k2, v2) == WithEntry(WithEntry(c, u, k2, v2), t, k1, v1)
  {
  }

  /** The cache file `content-cache.json`. */
  class CacheStore {
    var file: FileState<CachedData>

    constructor (file: FileState<CachedData>)
      ensures this.file == file
    {
      this.file := file;
    }

    /** `load_cache`. */
    function Load(): (c: CachedData)
      reads this
      ensures file.Holds? ==> c == file.contents
      ensures !file.Holds? ==> c == EmptyCache
    {
      LoadCache(file)
    }

    /** `save_cache`: the file holds `c` afterwards when the write
        succeeds; a failed write is only logged, and leaves the file as it
        was or, when it failed after truncating, unparsable. */
    method Save(c: CachedData, write: WriteOutcome)
      modifies this
      ensures write.Written? ==> file == Holds(c)
      ensures write.WriteFailed? ==> file == if write.truncated then Unparsable else old(file)
    {
      file := AfterWrite(file, c, write);
    }

    /** `update_artist_info`: load, insert into `artist_info`, save. */
    method UpdateArtistInfo(key: string, value: string, write: WriteOutcome)
      modifies this
      ensures file == AfterWrite(old(file), WithEntry(old(Load()), ArtistInfo, key, value), write)
    {
      var cache := Load();
      cache := cache.(artistInfo := cache.artistInfo[key := value]);
      Save(cache, write);
    }

    /** `update_song_context`: load, insert into `song_context`, save. */
    method UpdateSongContext(key: string, value: string, write: WriteOutcome)
      modifies this
      ensures file == AfterWrite(old(file), WithEntry(old(Load()), SongContext, key, value), write)
    {
      var cache := Load();
      cache := cache.(songContext := cache.songContext[key := value]);
      Save(cache, write);
    }

    /** `update_lyrics`: load, insert into `lyrics`, save. */
    method UpdateLyrics(key: string, value: string, write: WriteOutcome)
      modifies this
      ensures file == AfterWrite(old(file), WithEntry(old(Load()), Lyrics, key, value), write)
    {
      var cache := Load();
      cache := cache.(lyrics := cache.lyrics[key := value]);
      Save(cache, write);
    }
  }

  /** An update of a file that does not parse starts from empty tables: the
      rewritten file holds the new entry and nothing else. */
  lemma UpdateOfUnparsableFile(t: Table, key: string, value: string)
    ensures TableOf(WithEntry(LoadCache(Unparsable), t, key, value), t) == map[key := value]
    ensures forall u :: u != t ==> TableOf(WithEntry(LoadCache(Unparsable), t, key, value), u) == map[]
  {
  }
}
