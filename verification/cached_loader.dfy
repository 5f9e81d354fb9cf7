/**
 * The caching loader of the pretraining pipeline: a BinaryDataLoader that reads
 * `epochsToCache` whole epochs up front, each epoch being every file read at the
 * same duplication copy and concatenated (and shuffled when shuffling is on), and
 * then serves one cached epoch per pass without ever crossing into the next one.
 *
 * The loader extends the streaming loader; here it holds one (`base`), whose
 * file list, cursors, row buffer and length memo are the inherited state.
 */
module CachedLoader {
  import opened Common
  import opened Records
  import opened Loader
  import opened EpochCache

  class CachedDataLoader {
    /** The inherited streaming-loader state. */
    const base: BinaryDataLoader
    const epochsToCache: nat
    /** One buffer of records per cached epoch. */
    var dataCache: seq<seq<Row>>
    /** Position of the next cache entry to serve. */
    var cacheIndex: nat
    /** The duplication copy the first cache entry was read at. */
    ghost var firstCopy: nat
    /** The file order the cache was read in. */
    ghost var cachedFrom: seq<BinaryFile>

    /** The cache, the inherited state and how they relate, whichever entry is being served. */
    ghost predicate CacheValid()
      reads this, base`files, base`fileIndex, base`fileDuplicationIndex, base`len
    {
      base.fileIndex == 0 && base.batchSize > 0 &&
      CacheHolds(dataCache, cachedFrom, base.files, base.fmt, firstCopy, epochsToCache, base.fileDuplicationIndex,
                 base.shuffle) &&
      base.len == Some(Batches(|dataCache[0]|, base.batchSize))
    }

    /** CacheValid, and the buffer is the entry served last (nothing before the first). */
    ghost predicate Valid()
      reads this, base
    {
      CacheValid() && base.Valid() &&
      cacheIndex <= |dataCache| &&
      (cacheIndex == 0 ==> base.data == [] && base.dataIndex == 0) &&
      (cacheIndex > 0 ==> base.data == dataCache[cacheIndex - 1])
    }

    /**
     * The loader over a filled cache. Nothing is served yet; the length is that of
     * the first cached epoch in batches.
     */
    constructor (base: BinaryDataLoader, epochsToCache: nat, cache: seq<seq<Row>>, ghost first: nat)
      requires base.Valid() && base.fileIndex == 0 && base.data == [] && base.dataIndex == 0
      requires base.files != [] && AllAligned(base.files, base.fmt)
      requires epochsToCache >= 1 && |cache| == epochsToCache && first < base.fmt.duplicationFactor
      requires Uniform(base.fileDuplicationIndex, CopyAfter(first, epochsToCache, base.fmt.duplicationFactor))
      requires IsCache(cache, base.files, base.fmt, first, base.shuffle)
      requires base.len == Some(Batches(|cache[0]|, base.batchSize))
      ensures Valid()
      ensures this.base == base && this.epochsToCache == epochsToCache && dataCache == cache && cacheIndex == 0
      ensures firstCopy == first && cachedFrom == base.files
    {
      this.base := base;
      this.epochsToCache := epochsToCache;
      dataCache := cache;
      cacheIndex := 0;
      firstCopy := first;
      cachedFrom := base.files;
    }

    /**
     * Builds the streaming loader, rejects fewer than one epoch to cache, fills the
     * cache and records its length. A file list with no files raises from the
     * concatenation of nothing; a misaligned file raises as the streaming loader does.
     */
    static method New(files: seq<BinaryFile>, sampleSizes: seq<nat>, batchSize: nat, itemSize: nat,
                      shuffle: bool, duplicationFactor: nat, startDataAtEpoch: int, epochsToCache: int)
      returns (r: Result<CachedDataLoader, LoaderError>)
      requires batchSize > 0 && itemSize > 0 && duplicationFactor > 0 && Sum(sampleSizes) > 0
      requires FilesWellFormed(files, FileFormat(Sum(sampleSizes), itemSize, duplicationFactor))
      ensures epochsToCache < 1 ==> r == Err(EpochsToCacheBelowOne)
      ensures epochsToCache >= 1 ==>
                (r.Ok? <==> files != [] && AllAligned(files, FileFormat(Sum(sampleSizes), itemSize, duplicationFactor)))
      ensures epochsToCache >= 1 && files == [] ==> r == Err(NothingToConcatenate)
      ensures epochsToCache >= 1 && files != [] && r.Err? ==>
                r.error == TotalSamples(files, FileFormat(Sum(sampleSizes), itemSize, duplicationFactor)).error
      ensures r.Ok? ==> fresh(r.value) && fresh(r.value.base) && r.value.Valid()
      ensures r.Ok? ==> r.value.base.files == files && |r.value.dataCache| == epochsToCache && r.value.cacheIndex == 0
      ensures r.Ok? ==> r.value.firstCopy == startDataAtEpoch % duplicationFactor
      ensures r.Ok? ==>
                r.value.base.len == Some(TotalSamples(files, FileFormat(Sum(sampleSizes), itemSize, duplicationFactor)).value / batchSize)
    {
      var base := new BinaryDataLoader(files, sampleSizes, batchSize, itemSize, shuffle, duplicationFactor, startDataAtEpoch);
      if epochsToCache < 1 {
        return Err(EpochsToCacheBelowOne);
      }
      ghost var first := startDataAtEpoch % duplicationFactor;
      var cache := FillCache(base, epochsToCache, first);
      if cache.Err? {
        return Err(cache.error);
      }
      assert |cache.value| == epochsToCache;
      var rows := cache.value[0];
      base.len := Some(Batches(|rows|, batchSize));
      CacheEntryLength(cache.value, files, base.fmt, first, shuffle, 0);
      var loader := new CachedDataLoader(base, epochsToCache, cache.value, first);
      return Ok(loader);
    }

    /**
     * One epoch: every file loaded in turn at the current copy, the rows
     * concatenated and, when shuffling, shuffled; then back to the first file.
     * Each load moves its position's cursor one copy on.
     */
    static method ReadEpoch(base: BinaryDataLoader, ghost copy: nat) returns (r: Result<seq<Row>, LoaderError>)
      requires base.Valid() && base.fileIndex == 0 && copy < base.fmt.duplicationFactor
      requires Uniform(base.fileDuplicationIndex, copy)
      modifies base
      ensures base.Valid()
      ensures base.files == old(base.files) && base.data == old(base.data) && base.len == old(base.len)
      ensures r.Ok? ==> base.dataIndex == 0 && base.fileIndex == 0
      ensures r.Ok? <==> base.files != [] && AllAligned(base.files, base.fmt)
      ensures r.Err? && base.files == [] ==> r.error == NothingToConcatenate
      ensures r.Err? && base.files != [] ==> r.error == TotalSamples(base.files, base.fmt).error
      ensures r.Ok? ==> IsLoad(r.value, EpochRows(base.files, base.fmt, copy), base.shuffle)
      ensures r.Ok? ==> Uniform(base.fileDuplicationIndex, NextCopy(copy, base.fmt.duplicationFactor))
    {
      ghost var start := base.fileDuplicationIndex;
      ghost var d := base.fmt.duplicationFactor;
      var parts: seq<seq<Row>> := [];
      for i := 0 to |base.files|
        invariant base.Valid() && base.fileIndex == i
        invariant base.files == old(base.files) && base.data == old(base.data) && base.len == old(base.len)
        invariant i > 0 ==> base.dataIndex == 0
        invariant |parts| == i
        invariant AllAligned(base.files[..i], base.fmt) && FilesWellFormed(base.files[..i], base.fmt)
        invariant Flatten(parts) == EpochRows(base.files[..i], base.fmt, copy)
        invariant base.fileDuplicationIndex == Advance(start, 0, i, d)
      {
        ghost var before := base.fileDuplicationIndex;
        var f := base.LoadFile();
        if f.Err? {
          FirstMisaligned(base.files, base.fmt, i);
          return Err(f.error);
        }
        AlignedPrefixStep(base.files, base.fmt, i);
        WellFormedPrefix(base.files, base.fmt, i + 1);
        EpochRowsStep(base.files, base.fmt, copy, i, parts, f.value);
        AdvanceCompose(start, 0, i, i + 1, d);
        parts := parts + [f.value];
      }
      assert base.files[..|base.files|] == base.files;
      if parts == [] {
        return Err(NothingToConcatenate);
      }
      var rows := Flatten(parts);
      if base.shuffle {
        rows := Shuffle(rows);
      }
      base.fileIndex := 0;
      r := Ok(rows);
    }

    /**
     * Fills a cache of `epochs` entries, entry e read at copy CopyAfter(copy, e),
     * resetting the file position after each epoch.
     */
    static method FillCache(base: BinaryDataLoader, epochs: nat, ghost copy: nat) returns (r: Result<seq<seq<Row>>, LoaderError>)
      requires base.Valid() && base.fileIndex == 0 && copy < base.fmt.duplicationFactor
      requires Uniform(base.fileDuplicationIndex, copy) && epochs > 0
      modifies base
      ensures base.Valid()
      ensures base.files == old(base.files) && base.data == old(base.data) && base.len == old(base.len)
      ensures r.Ok? ==> base.dataIndex == 0 && base.fileIndex == 0
      ensures r.Ok? <==> base.files != [] && AllAligned(base.files, base.fmt)
      ensures r.Err? && base.files == [] ==> r.error == NothingToConcatenate
      ensures r.Err? && base.files != [] ==> r.error == TotalSamples(base.files, base.fmt).error
      ensures r.Ok? ==> |r.value| == epochs
      ensures r.Ok? ==> IsCache(r.value, base.files, base.fmt, copy, base.shuffle)
      ensures r.Ok? ==> Uniform(base.fileDuplicationIndex, CopyAfter(copy, epochs, base.fmt.duplicationFactor))
    {
      ghost var d := base.fmt.duplicationFactor;
      var cache: seq<seq<Row>> := [];
      for e := 0 to epochs
        invariant base.Valid() && base.fileIndex == 0
        invariant base.files == old(base.files) && base.data == old(base.data) && base.len == old(base.len)
        invariant e > 0 ==> base.dataIndex == 0
        invariant |cache| == e && Uniform(base.fileDuplicationIndex, CopyAfter(copy, e, d))
        invariant e > 0 ==> base.files != [] && AllAligned(base.files, base.fmt)
        invariant e > 0 ==> IsCache(cache, base.files, base.fmt, copy, base.shuffle)
      {
        var rows := ReadEpoch(base, CopyAfter(copy, e, d));
        if rows.Err? {
          return Err(rows.error);
        }
        IsCacheSnoc(cache, base.files, base.fmt, copy, base.shuffle, rows.value);
        cache := cache + [rows.value];
        CopyAfterStep(copy, e, d);
      }
      r := Ok(cache);
    }

    /** Refills the cache with the next epochsToCache epochs, continuing the copy cycle. */
    method LoadCache()
      requires CacheValid() && base.Valid()
      modifies this, base
      ensures CacheValid() && base.Valid() && cacheIndex == 0
      ensures base.files == old(base.files) && base.data == old(base.data) && base.dataIndex == 0
      ensures base.len == old(base.len)
      ensures firstCopy == CopyAfter(old(firstCopy), epochsToCache, base.fmt.duplicationFactor)
      ensures cachedFrom == base.files
    {
      ghost var next := CopyAfter(firstCopy, epochsToCache, base.fmt.duplicationFactor);
      HeldCacheLength(dataCache, cachedFrom, base.files, base.fmt, firstCopy, epochsToCache, base.fileDuplicationIndex,
                      base.shuffle, 0);
      var cache := FillCache(base, epochsToCache, next);
      assert cache.Ok?;
      FilledCacheHolds(cache.value, base.files, base.fmt, next, epochsToCache, base.fileDuplicationIndex, base.shuffle);
      cacheIndex := 0;
      firstCopy := next;
      cachedFrom := base.files;
      dataCache := cache.value;
    }

    /**
     * Serves the next cache entry. Past the last entry the cache is refilled with
     * fresh epochs when shuffling or duplication makes them differ, and replayed
     * from the start otherwise. The read position is not reset here (a refill
     * resets it as a side effect of loading the files).
     */
    method LoadData()
      requires Valid()
      modifies this, base
      ensures Valid() && cacheIndex >= 1
      ensures base.files == old(base.files) && base.len == old(base.len)
      ensures old(cacheIndex) < |old(dataCache)| ==>
                dataCache == old(dataCache) && firstCopy == old(firstCopy) &&
                cacheIndex == old(cacheIndex) + 1 && base.dataIndex == old(base.dataIndex)
      ensures old(cacheIndex) == |old(dataCache)| && (base.shuffle || base.fmt.duplicationFactor > 1) ==>
                cacheIndex == 1 && base.dataIndex == 0 && cachedFrom == base.files &&
                firstCopy == CopyAfter(old(firstCopy), epochsToCache, base.fmt.duplicationFactor)
      ensures old(cacheIndex) == |old(dataCache)| && !base.shuffle && base.fmt.duplicationFactor == 1 ==>
                dataCache == old(dataCache) && cacheIndex == 1 && base.dataIndex == old(base.dataIndex)
      ensures IsLoad(base.data, EntryRows(cachedFrom, base.fmt, firstCopy, cacheIndex - 1), base.shuffle)
      ensures !base.shuffle && base.fmt.duplicationFactor == 1 ==> base.data == EpochRows(base.files, base.fmt, 0)
    {
      if cacheIndex > 0 {
        CacheEntryLength(dataCache, cachedFrom, base.fmt, firstCopy, base.shuffle, cacheIndex - 1);
      }
      if cacheIndex >= |dataCache| {
        if base.shuffle || base.fmt.duplicationFactor > 1 {
          LoadCache();
        } else {
          cacheIndex := 0;
        }
      }
      ServeEntry();
    }

    /** Makes the entry at cacheIndex the buffer and moves cacheIndex past it. */
    method ServeEntry()
      requires CacheValid() && base.Valid() && cacheIndex < |dataCache|
      requires base.dataIndex <= SampleTotal(cachedFrom, base.fmt)
      modifies this`cacheIndex, base`data
      ensures Valid() && cacheIndex == old(cacheIndex) + 1 && base.data == dataCache[old(cacheIndex)]
      ensures IsLoad(base.data, EntryRows(cachedFrom, base.fmt, firstCopy, cacheIndex - 1), base.shuffle)
      ensures !base.shuffle && base.fmt.duplicationFactor == 1 ==> base.data == EpochRows(base.files, base.fmt, 0)
    {
      CacheEntryLength(dataCache, cachedFrom, base.fmt, firstCopy, base.shuffle, cacheIndex);
      assert IsLoad(dataCache[cacheIndex], EntryRows(cachedFrom, base.fmt, firstCopy, cacheIndex), base.shuffle);
      if !base.shuffle && base.fmt.duplicationFactor == 1 {
        ReplayedCacheIsRefill(dataCache, cachedFrom, base.fmt, firstCopy);
      }
      base.data := dataCache[cacheIndex];
      cacheIndex := cacheIndex + 1;
    }

    /**
     * The next n rows of the buffer. Unlike the streaming loader it never crosses
     * into another buffer: too few rows left ends the epoch and changes nothing.
     */
    method GetData(n: nat) returns (r: Result<seq<Row>, LoaderError>)
      requires Valid()
      modifies base`dataIndex
      ensures Valid()
      ensures old(base.dataIndex) + n > |base.data| ==> r == Err(StopIteration) && base.dataIndex == old(base.dataIndex)
      ensures old(base.dataIndex) + n <= |base.data| ==>
                r.Ok? && |r.value| == n && r.value + base.Unread() == old(base.Unread()) &&
                base.dataIndex == old(base.dataIndex) + n
      ensures r.Ok? ==> RowsOfWidth(r.value, base.fmt.sampleSize)
    {
      if base.dataIndex + n > |base.data| {
        return Err(StopIteration);
      }
      SliceSplit(base.data, base.dataIndex, base.dataIndex + n);
      RowsOfWidthSlice(base.data, base.dataIndex, base.dataIndex + n, base.fmt.sampleSize);
      r := Ok(base.data[base.dataIndex..base.dataIndex + n]);
      base.dataIndex := base.dataIndex + n;
    }

    /**
     * Starts an epoch as the streaming loader does (first file, first row, the file
     * order shuffled when shuffling is on) and then serves the next cache entry.
     */
    method Start()
      requires Valid()
      modifies this, base
      ensures Valid() && cacheIndex >= 1
      ensures multiset(base.files) == multiset(old(base.files)) && (!base.shuffle ==> base.files == old(base.files))
      ensures base.fileIndex == 0 && base.dataIndex == 0 && base.len == old(base.len)
      ensures old(cacheIndex) < |old(dataCache)| ==>
                dataCache == old(dataCache) && cacheIndex == old(cacheIndex) + 1
      ensures old(cacheIndex) == |old(dataCache)| && (base.shuffle || base.fmt.duplicationFactor > 1) ==>
                cacheIndex == 1 && cachedFrom == base.files &&
                firstCopy == CopyAfter(old(firstCopy), epochsToCache, base.fmt.duplicationFactor)
      ensures old(cacheIndex) == |old(dataCache)| && !base.shuffle && base.fmt.duplicationFactor == 1 ==>
                dataCache == old(dataCache) && cacheIndex == 1
      ensures IsLoad(base.data, EntryRows(cachedFrom, base.fmt, firstCopy, cacheIndex - 1), base.shuffle)
      ensures !base.shuffle && base.fmt.duplicationFactor == 1 ==> base.data == EpochRows(base.files, base.fmt, 0)
    {
      base.fileIndex := 0;
      base.dataIndex := 0;
      if base.shuffle {
        ghost var before := base.files;
        base.files := Shuffle(base.files);
        PermutedFiles(before, base.files, base.fmt);
        PermutedAligned(before, base.files, base.fmt);
      }
      LoadData();
    }

    /**
     * The next batch, taken as GetData takes it (`batch`), split column-wise into
     * one block per field.
     */
    method Next() returns (r: Result<seq<seq<Row>>, LoaderError>, ghost batch: Result<seq<Row>, LoaderError>)
      requires Valid()
      modifies base`dataIndex
      ensures Valid()
      ensures old(base.dataIndex) + base.batchSize > |base.data| ==>
                r == Err(StopIteration) && batch == Err(StopIteration) && base.dataIndex == old(base.dataIndex)
      ensures old(base.dataIndex) + base.batchSize <= |base.data| ==>
                r.Ok? && batch.Ok? && |batch.value| == base.batchSize &&
                batch.value + base.Unread() == old(base.Unread()) && base.dataIndex == old(base.dataIndex) + base.batchSize
      ensures r.Ok? ==> batch.Ok? && RowsOfWidth(batch.value, Sum(base.sampleSizes)) && |r.value| == |base.sampleSizes|
      ensures r.Ok? ==> forall i :: 0 <= i < |base.sampleSizes| ==> IsFieldBlock(r.value[i], batch.value, base.sampleSizes, i)
    {
      var data := GetData(base.batchSize);
      batch := data;
      if data.Err? {
        return Err(data.error), batch;
      }
      var items := SplitBatch(data.value, base.sampleSizes);
      r := Ok(items);
    }

    /**
     * Length in batches. The cache fixes it when it is built, so it is the first
     * cached epoch's rows divided by the batch size, which is also what the
     * streaming loader would compute from the file sizes.
     */
    method Length() returns (n: nat)
      requires Valid()
      ensures n == Batches(|dataCache[0]|, base.batchSize)
      ensures n == TotalSamples(base.files, base.fmt).value / base.batchSize
    {
      n := base.len.value;
      CacheEntryLength(dataCache, cachedFrom, base.fmt, firstCopy, base.shuffle, 0);
      SampleTotalPermutation(cachedFrom, base.files, base.fmt);
    }
  }
}
