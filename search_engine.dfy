/**
  The entry points of search_engine.py with their module-level caches:
  `load_stopwords` (with `_STOPWORDS_CACHE`), `build_bm25_index` and
  `retrieve` (with `_INDEX_CACHE`). The file system is a `Disk` value that
  the operations read and, for the build's pickle, return updated; the
  environment-dependent default paths are fixed when the engine is created.
 */
module SearchEngine {
  import opened Tokenizer
  import opened IndexBuilder
  import opened Scorer
  import opened Retriever

  type Path = string

  datatype Option<T> = None | Some(value: T)

  /** The two `ValueError`s the module raises. */
  datatype Error = StopwordsNotFound(path: Path) | IndexNotFound(path: Path)

  datatype Result<T> = Ok(value: T) | Err(error: Error)

  /** What the engine can find on disk: each stopword file as its lines
      (`f.read().splitlines()`), and each pickled index. */
  datatype Disk = Disk(stopwordFiles: map<Path, seq<string>>, indexFiles: map<Path, Snapshot>)

  /** `path or DEFAULT`: a missing or empty path means the default. */
  function Resolve(path: Option<Path>, default: Path): (r: Path)
    ensures r == default || (path.Some? && r == path.value)
    ensures r == default <== path == None || path == Some("")
  {
    if path.Some? && path.value != "" then path.value else default
  }

  /** `set(lines)`: the stopword set of a file. */
  function StopwordSet(lines: seq<string>): (r: set<Word>)
    ensures forall w :: w in r <==> w in lines
  {
    set l | l in lines
  }

  /** `_STOPWORDS_CACHE` after `load_stopwords(path)`: a file read from
      disk is cached; a hit or a missing file leaves the cache as it was. */
  function CacheAfterLoad(cache: map<Path, set<Word>>, disk: Disk, path: Path): (r: map<Path, set<Word>>)
    ensures cache.Keys <= r.Keys && forall p :: p in cache ==> r[p] == cache[p]
    ensures path in r <==> path in cache || path in disk.stopwordFiles
  {
    if path !in cache && path in disk.stopwordFiles then cache[path := StopwordSet(disk.stopwordFiles[path])] else cache
  }

  /** The stopword set `load_stopwords(path)` returns when it returns one:
      the cached set if there is one, otherwise the file's lines. */
  function LoadedStopwords(cache: map<Path, set<Word>>, disk: Disk, path: Path): set<Word>
    requires path in cache || path in disk.stopwordFiles
  {
    if path in cache then cache[path] else StopwordSet(disk.stopwordFiles[path])
  }

  /** The keyword defaults `start=1`, `end=107` and `top_n=10`. */
  const DefaultStart: int := 1
  const DefaultEnd: int := 107
  const DefaultTopN: int := 10

  /** A keyword argument: the value given, or the default when omitted. */
  function Given<T>(arg: Option<T>, default: T): T {
    if arg.Some? then arg.value else default
  }

  /** Every index the engine may load is one the build produced. */
  ghost predicate IndexFilesWellFormed(disk: Disk) {
    forall p :: p in disk.indexFiles ==> WellFormed(disk.indexFiles[p])
  }

  class Engine {
    /** jieba's segmenter. */
    const segment: Segmenter
    /** `DEFAULT_STOPWORDS_PATH` and `DEFAULT_INDEX_PATH`, as the environment set them. */
    const defaultStopwordsPath: Path
    const defaultIndexPath: Path
    /** `_STOPWORDS_CACHE` */
    var stopwordsCache: map<Path, set<Word>>
    /** `_INDEX_CACHE` */
    var indexCache: map<Path, Snapshot>

    /** Every cached index is well formed. */
    ghost predicate Valid()
      reads this
    {
      forall p :: p in indexCache ==> WellFormed(indexCache[p])
    }

    constructor(segment: Segmenter, defaultStopwordsPath: Path, defaultIndexPath: Path)
      ensures this.segment == segment
      ensures this.defaultStopwordsPath == defaultStopwordsPath && this.defaultIndexPath == defaultIndexPath
      ensures stopwordsCache == map[] && indexCache == map[]
      ensures Valid()
    {
      this.segment := segment;
      this.defaultStopwordsPath := defaultStopwordsPath;
      this.defaultIndexPath := defaultIndexPath;
      stopwordsCache := map[];
      indexCache := map[];
    }

    /** `load_stopwords`: a cached path answers from the cache without
        reading; otherwise the file is read and cached; a missing file is an
        error that leaves the cache as it was. */
    method LoadStopwords(disk: Disk, stopwordsPath: Option<Path>) returns (r: Result<set<Word>>)
      modifies this
      ensures var path := Resolve(stopwordsPath, defaultStopwordsPath);
        if path in old(stopwordsCache) then
          r == Ok(old(stopwordsCache)[path]) && stopwordsCache == old(stopwordsCache)
        else if path in disk.stopwordFiles then
          r == Ok(StopwordSet(disk.stopwordFiles[path])) && stopwordsCache == old(stopwordsCache)[path := r.value]
        else
          r == Err(StopwordsNotFound(path)) && stopwordsCache == old(stopwordsCache)
      ensures indexCache == old(indexCache)
    {
      var path := Resolve(stopwordsPath, defaultStopwordsPath);
      if path in stopwordsCache {
        return Ok(stopwordsCache[path]);
      }
      if path !in disk.stopwordFiles {
        return Err(StopwordsNotFound(path));
      }
      var stopwords := StopwordSet(disk.stopwordFiles[path]);
      stopwordsCache := stopwordsCache[path := stopwords];
      r := Ok(stopwords);
    }

    /** `build_bm25_index`: load the stopwords, index the pages with ids in
        `start..end` and save the snapshot at `save_path`; omitted arguments
        take their defaults. A stopword error leaves the disk untouched. The
        index cache is not refreshed. */
    method BuildBm25Index(disk: Disk, pages: map<DocId, Page>, stopwordsPath: Option<Path>,
                          start: Option<int>, end: Option<int>, savePath: Option<Path>)
      returns (r: Result<Snapshot>, saved: Disk)
      modifies this
      ensures var sp := Resolve(stopwordsPath, defaultStopwordsPath);
        && stopwordsCache == CacheAfterLoad(old(stopwordsCache), disk, sp)
        && indexCache == old(indexCache)
        && (r.Err? <==> sp !in old(stopwordsCache) && sp !in disk.stopwordFiles)
        && (r.Err? ==> r.error == StopwordsNotFound(sp) && saved == disk)
        && (r.Ok? ==>
              var c := Corpus(segment, LoadedStopwords(old(stopwordsCache), disk, sp), pages);
              && WellFormed(r.value)
              && Summarizes(r.value.invertedIndex, r.value.wordDf, r.value.docLengths, r.value.totalDocs,
                            c, Given(start, DefaultStart), Given(end, DefaultEnd) + 1)
              && saved == disk.(indexFiles := disk.indexFiles[Given(savePath, defaultIndexPath) := r.value]))
    {
      var loaded := LoadStopwords(disk, stopwordsPath);
      if loaded.Err? {
        return Err(loaded.error), disk;
      }
      var snapshot := BuildIndex(Corpus(segment, loaded.value, pages), Given(start, DefaultStart), Given(end, DefaultEnd));
      saved := disk.(indexFiles := disk.indexFiles[Given(savePath, defaultIndexPath) := snapshot]);
      r := Ok(snapshot);
    }

    /** `retrieve`: stopwords first, then the index (from the cache, or
        loaded from disk and cached), then the query's tokens and their
        ranking; an omitted `top_n` is 10. */
    method Retrieve(disk: Disk, query: string, indexPath: Option<Path>, stopwordsPath: Option<Path>,
                    topN: Option<int>, ln: Ln) returns (r: Result<seq<Hit>>)
      requires Valid() && IndexFilesWellFormed(disk)
      modifies this
      ensures Valid()
      ensures var sp := Resolve(stopwordsPath, defaultStopwordsPath);
        stopwordsCache == CacheAfterLoad(old(stopwordsCache), disk, sp)
      ensures var ip := Resolve(indexPath, defaultIndexPath);
              var sp := Resolve(stopwordsPath, defaultStopwordsPath);
        if sp !in old(stopwordsCache) && sp !in disk.stopwordFiles then
          r == Err(StopwordsNotFound(sp)) && indexCache == old(indexCache)
        else if ip !in old(indexCache) && ip !in disk.indexFiles then
          r == Err(IndexNotFound(ip)) && indexCache == old(indexCache)
        else
          var snapshot := if ip in old(indexCache) then old(indexCache)[ip] else disk.indexFiles[ip];
          var words := Tokenize(segment, query, LoadedStopwords(old(stopwordsCache), disk, sp));
          && indexCache == old(indexCache)[ip := snapshot]
          && r.Ok?
          && (|words| == 0 ==> r.value == [])
          && IsRanking(r.value, words, snapshot, Given(topN, DefaultTopN), ln)
    {
      var ip := Resolve(indexPath, defaultIndexPath);
      ghost var sp := Resolve(stopwordsPath, defaultStopwordsPath);
      var loaded := LoadStopwords(disk, stopwordsPath);
      assert stopwordsCache == CacheAfterLoad(old(stopwordsCache), disk, sp);
      if loaded.Err? {
        return Err(loaded.error);
      }
      assert loaded.value == LoadedStopwords(old(stopwordsCache), disk, sp);
      var snapshot: Snapshot;
      if ip in indexCache {
        snapshot := indexCache[ip];
      } else {
        if ip !in disk.indexFiles {
          return Err(IndexNotFound(ip));
        }
        snapshot := disk.indexFiles[ip];
        indexCache := indexCache[ip := snapshot];
      }
      var words := Tokenize(segment, query, loaded.value);
      if |words| == 0 {
        return Ok([]);
      }
      var results := Rank(words, snapshot, Given(topN, DefaultTopN), ln);
      r := Ok(results);
    }
  }
}
