/**
 * The cache of whole epochs kept by the caching loader, as values: which copy of
 * each file an epoch reads, what a cache of consecutive epochs holds, and the
 * facts about epochs read file by file that filling it needs.
 */
module EpochCache {
  import opened Common
  import opened Records
  import opened Loader

  /** Whole batches of `batchSize` records in `samples` records: the remainder is dropped. */
  function Batches(samples: nat, batchSize: nat): nat
    requires batchSize > 0
  {
    samples / batchSize
  }

  /** Every position's duplication cursor is `copy`. */
  predicate Uniform(cursors: seq<nat>, copy: nat)
  {
    forall k :: 0 <= k < |cursors| ==> cursors[k] == copy
  }

  /** The copy read e epochs after copy c, stepping one copy on per epoch, cyclically. */
  function CopyAfter(c: nat, e: nat, d: nat): (copy: nat)
    requires c < d
    ensures copy < d
  {
    if e == 0 then c else NextCopy(CopyAfter(c, e - 1, d), d)
  }

  /** Epoch e after copy c reads copy (c + e) mod d. */
  lemma {:induction false} CopyAfterMod(c: nat, e: nat, d: nat)
    requires c < d
    ensures CopyAfter(c, e, d) == (c + e) % d
  {
    if e == 0 {
      DivisionUnique(c, d, 0, c);
    } else {
      CopyAfterMod(c, e - 1, d);
      ModSucc(c + e - 1, d);
    }
  }

  /** The copy after x mod d is (x + 1) mod d. */
  lemma ModSucc(x: nat, d: nat)
    requires d > 0
    ensures NextCopy(x % d, d) == (x + 1) % d
  {
    var q, p := x / d, x % d;
    assert x == q * d + p;
    if p + 1 == d {
      assert x + 1 == (q + 1) * d + 0 by { MulSucc(q, d); }
      DivisionUnique(x + 1, d, q + 1, 0);
    } else {
      DivisionUnique(x + 1, d, q, p + 1);
    }
  }

  lemma MulSucc(q: int, d: int)
    ensures q * d + d == (q + 1) * d
  {
  }

  /** Stepping e epochs and then one more is stepping e + 1 epochs. */
  lemma CopyAfterStep(c: nat, e: nat, d: nat)
    requires c < d
    ensures NextCopy(CopyAfter(c, e, d), d) == CopyAfter(c, e + 1, d)
  {
  }

  /** Stepping a epochs and then b epochs is stepping a + b epochs. */
  lemma {:induction false} CopyAfterAdd(c: nat, a: nat, b: nat, d: nat)
    requires c < d
    ensures CopyAfter(CopyAfter(c, a, d), b, d) == CopyAfter(c, a + b, d)
  {
    if b > 0 {
      CopyAfterAdd(c, a, b - 1, d);
    }
  }

  /** The rows cache entry e is read from: every file at copy CopyAfter(first, e). */
  ghost function EntryRows(files: seq<BinaryFile>, fmt: FileFormat, first: nat, e: nat): seq<Row>
    requires fmt.Valid() && FilesWellFormed(files, fmt) && AllAligned(files, fmt) && first < fmt.duplicationFactor
  {
    EpochRows(files, fmt, CopyAfter(first, e, fmt.duplicationFactor))
  }

  /**
   * Cache entry e holds the rows of the epoch that reads copy CopyAfter(first, e)
   * of every file (IsCacheAt states it entry by entry).
   */
  ghost predicate IsCache(cache: seq<seq<Row>>, files: seq<BinaryFile>, fmt: FileFormat, first: nat, shuffled: bool)
    requires fmt.Valid()
  {
    FilesWellFormed(files, fmt) && AllAligned(files, fmt) && first < fmt.duplicationFactor &&
    forall e {:trigger EntryRows(files, fmt, first, e)} ::
      0 <= e < |cache| ==> IsLoad(cache[e], EntryRows(files, fmt, first, e), shuffled)
  }

  /** Entry e of a cache is a load of the epoch at copy CopyAfter(first, e). */
  lemma IsCacheAt(cache: seq<seq<Row>>, files: seq<BinaryFile>, fmt: FileFormat, first: nat, shuffled: bool, e: nat)
    requires fmt.Valid() && IsCache(cache, files, fmt, first, shuffled) && e < |cache|
    ensures IsLoad(cache[e], EpochRows(files, fmt, CopyAfter(first, e, fmt.duplicationFactor)), shuffled)
  {
    assert IsLoad(cache[e], EntryRows(files, fmt, first, e), shuffled);
  }

  /** A cache followed by the epoch after its last entry is a cache. */
  lemma IsCacheSnoc(cache: seq<seq<Row>>, files: seq<BinaryFile>, fmt: FileFormat, first: nat, shuffled: bool,
                    rows: seq<Row>)
    requires fmt.Valid() && IsCache(cache, files, fmt, first, shuffled)
    requires IsLoad(rows, EpochRows(files, fmt, CopyAfter(first, |cache|, fmt.duplicationFactor)), shuffled)
    ensures IsCache(cache + [rows], files, fmt, first, shuffled)
  {
    var longer := cache + [rows];
    forall e | 0 <= e < |longer| ensures IsLoad(longer[e], EntryRows(files, fmt, first, e), shuffled) {
      if e < |cache| {
        assert longer[e] == cache[e];
        assert IsLoad(cache[e], EntryRows(files, fmt, first, e), shuffled);
      }
    }
  }

  /** Every cache entry holds one epoch's worth of records. */
  lemma CacheEntryLength(cache: seq<seq<Row>>, files: seq<BinaryFile>, fmt: FileFormat, first: nat, shuffled: bool, e: nat)
    requires fmt.Valid() && IsCache(cache, files, fmt, first, shuffled) && e < |cache|
    ensures |cache[e]| == SampleTotal(files, fmt)
    ensures RowsOfWidth(cache[e], fmt.sampleSize)
  {
    var rows := EpochRows(files, fmt, CopyAfter(first, e, fmt.duplicationFactor));
    IsCacheAt(cache, files, fmt, first, shuffled, e);
    assert |multiset(cache[e])| == |multiset(rows)|;
    PermutedRowsOfWidth(cache[e], rows, fmt.sampleSize);
  }

  /**
   * Without shuffling and with a single copy per file every epoch reads the same
   * rows, so a cache can be replayed instead of refilled: each entry is the file
   * rows at copy 0, in file order.
   */
  lemma ReplayedCacheIsRefill(cache: seq<seq<Row>>, files: seq<BinaryFile>, fmt: FileFormat, first: nat)
    requires fmt.Valid() && fmt.duplicationFactor == 1 && IsCache(cache, files, fmt, first, false)
    ensures forall e :: 0 <= e < |cache| ==> cache[e] == EpochRows(files, fmt, 0)
  {
    forall e | 0 <= e < |cache| ensures cache[e] == EpochRows(files, fmt, 0) {
      IsCacheAt(cache, files, fmt, first, false, e);
      CopyAfterMod(first, e, 1);
      assert CopyAfter(first, e, 1) == 0;
    }
  }

  /** A prefix of aligned files followed by an aligned file is aligned. */
  lemma AlignedPrefixStep(files: seq<BinaryFile>, fmt: FileFormat, k: nat)
    requires fmt.Valid() && k < |files| && AllAligned(files[..k], fmt) && Aligned(files[k], fmt)
    ensures AllAligned(files[..k + 1], fmt)
  {
    var pre, longer := files[..k], files[..k + 1];
    forall j | 0 <= j < k + 1 ensures Aligned(longer[j], fmt) {
      if j < k { assert longer[j] == pre[j]; }
    }
  }

  /** The first misaligned file is the one TotalSamples reports. */
  lemma FirstMisaligned(files: seq<BinaryFile>, fmt: FileFormat, k: nat)
    requires fmt.Valid() && k < |files| && AllAligned(files[..k], fmt) && !Aligned(files[k], fmt)
    ensures TotalSamples(files, fmt).Err? && TotalSamples(files, fmt).error == Misaligned(files[k].name)
  {
    var pre := files[..k];
    forall i | 0 <= i < k ensures Aligned(files[i], fmt) {
      assert pre[i] == files[i];
    }
  }

  /** One more file at copy `copy` extends an epoch's rows by that file's rows. */
  lemma EpochRowsStep(files: seq<BinaryFile>, fmt: FileFormat, copy: nat, k: nat, parts: seq<seq<Row>>, rows: seq<Row>)
    requires fmt.Valid() && FilesWellFormed(files, fmt) && copy < fmt.duplicationFactor
    requires k < |files| && AllAligned(files[..k + 1], fmt)
    requires AllAligned(files[..k], fmt) && FilesWellFormed(files[..k], fmt) && FilesWellFormed(files[..k + 1], fmt)
    requires Flatten(parts) == EpochRows(files[..k], fmt, copy)
    requires Aligned(files[k], fmt) && rows == FileRows(files[k], fmt, copy)
    ensures Flatten(parts + [rows]) == EpochRows(files[..k + 1], fmt, copy)
  {
    assert files[..k + 1][..k] == files[..k];
    assert (parts + [rows])[..|parts|] == parts;
  }

  lemma WellFormedPrefix(files: seq<BinaryFile>, fmt: FileFormat, k: nat)
    requires fmt.Valid() && FilesWellFormed(files, fmt) && k <= |files|
    ensures FilesWellFormed(files[..k], fmt)
  {
    forall j | 0 <= j < k ensures WellFormed(files[..k][j], fmt) {
      assert files[..k][j] == files[j];
    }
  }

  /**
   * The cache invariant on values: `cache` holds `epochs` epochs read from `from`
   * (the file order of the fill, a permutation of the current `files` that is the
   * same order when nothing is shuffled) starting at copy `first`, and every
   * position's cursor has moved on to the copy the next fill starts at.
   */
  ghost predicate CacheHolds(cache: seq<seq<Row>>, from: seq<BinaryFile>, files: seq<BinaryFile>, fmt: FileFormat,
                             first: nat, epochs: nat, cursors: seq<nat>, shuffled: bool)
  {
    fmt.Valid() && files != [] && AllAligned(files, fmt) &&
    epochs >= 1 && |cache| == epochs && first < fmt.duplicationFactor &&
    Uniform(cursors, CopyAfter(first, epochs, fmt.duplicationFactor)) &&
    FilesWellFormed(from, fmt) && AllAligned(from, fmt) &&
    multiset(from) == multiset(files) && (!shuffled ==> from == files) &&
    IsCache(cache, from, fmt, first, shuffled)
  }

  /** Every entry of a held cache has as many rows as one copy of the current files. */
  lemma HeldCacheLength(cache: seq<seq<Row>>, from: seq<BinaryFile>, files: seq<BinaryFile>, fmt: FileFormat,
                        first: nat, epochs: nat, cursors: seq<nat>, shuffled: bool, e: nat)
    requires CacheHolds(cache, from, files, fmt, first, epochs, cursors, shuffled) && e < |cache|
    ensures |cache[e]| == SampleTotal(files, fmt) && RowsOfWidth(cache[e], fmt.sampleSize)
  {
    CacheEntryLength(cache, from, fmt, first, shuffled, e);
    SampleTotalPermutation(from, files, fmt);
  }

  /** A cache just filled from the current file order is held. */
  lemma FilledCacheHolds(cache: seq<seq<Row>>, files: seq<BinaryFile>, fmt: FileFormat,
                         first: nat, epochs: nat, cursors: seq<nat>, shuffled: bool)
    requires fmt.Valid() && files != [] && FilesWellFormed(files, fmt) && AllAligned(files, fmt)
    requires epochs >= 1 && |cache| == epochs && first < fmt.duplicationFactor
    requires IsCache(cache, files, fmt, first, shuffled)
    requires Uniform(cursors, CopyAfter(first, epochs, fmt.duplicationFactor))
    ensures CacheHolds(cache, files, files, fmt, first, epochs, cursors, shuffled)
    ensures |cache[0]| == SampleTotal(files, fmt)
  {
    CacheEntryLength(cache, files, fmt, first, shuffled, 0);
  }
}
