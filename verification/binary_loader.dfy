/**
 * The streaming loader of the pretraining pipeline: it walks a list of binary
 * files of duplicated records, reads one copy of each file per epoch, optionally
 * shuffles the file order and the rows of each file, and cuts the concatenated
 * stream into batches of `batchSize` records whose fields are split apart.
 */
module Loader {
  import opened Common
  import opened Records

  /** A buffer that a load produced from `rows`: a reordering, and `rows` itself without shuffling. */
  ghost predicate IsLoad(buffer: seq<Row>, rows: seq<Row>, shuffled: bool)
  {
    multiset(buffer) == multiset(rows) && (!shuffled ==> buffer == rows)
  }

  predicate CursorsBelow(cursors: seq<nat>, d: nat)
  {
    forall k :: 0 <= k < |cursors| ==> cursors[k] < d
  }

  /**
   * `buffer` is what loading the file at position i produces when that position's
   * duplication cursor is as in `cursors`.
   */
  ghost predicate LoadOf(files: seq<BinaryFile>, fmt: FileFormat, cursors: seq<nat>, i: nat,
                         buffer: seq<Row>, shuffled: bool)
    requires fmt.Valid() && FilesWellFormed(files, fmt)
    requires |cursors| == |files| && CursorsBelow(cursors, fmt.duplicationFactor)
  {
    i < |files| && Aligned(files[i], fmt) && IsLoad(buffer, FileRows(files[i], fmt, cursors[i]), shuffled)
  }

  /**
   * `loaded` are the buffers of the files at positions start, start + 1, ..., each
   * read at the duplication cursor its position had before the run.
   */
  ghost predicate LoadedRun(files: seq<BinaryFile>, fmt: FileFormat, cursors: seq<nat>, start: nat,
                            loaded: seq<seq<Row>>, shuffled: bool)
    requires fmt.Valid() && FilesWellFormed(files, fmt)
    requires |cursors| == |files| && CursorsBelow(cursors, fmt.duplicationFactor)
    decreases |loaded|
  {
    if loaded == [] then start <= |files|
    else LoadOf(files, fmt, cursors, start, loaded[0], shuffled) &&
         LoadedRun(files, fmt, cursors, start + 1, loaded[1..], shuffled)
  }

  /** The copy after copy c of d copies, wrapping round to the first. */
  function NextCopy(c: nat, d: nat): (next: nat)
    requires c < d
    ensures next < d && next == (c + 1) % d
  {
    if c + 1 == d then
      DivisionUnique(c + 1, d, 1, 0);
      0
    else
      DivisionUnique(c + 1, d, 0, c + 1);
      c + 1
  }

  /** The duplication cursors with those of positions lo .. hi-1 moved one copy on. */
  function Advance(cursors: seq<nat>, lo: nat, hi: nat, d: nat): (after: seq<nat>)
    requires CursorsBelow(cursors, d)
    ensures |after| == |cursors|
    ensures CursorsBelow(after, d)
  {
    seq(|cursors|, k requires 0 <= k < |cursors| => if lo <= k < hi then NextCopy(cursors[k], d) else cursors[k])
  }

  /** Advancing an empty range changes nothing. */
  lemma AdvanceNothing(cursors: seq<nat>, lo: nat, d: nat)
    requires CursorsBelow(cursors, d)
    ensures Advance(cursors, lo, lo, d) == cursors
  {
  }

  /** Advancing lo .. mid-1 and then mid .. hi-1 advances lo .. hi-1. */
  lemma AdvanceCompose(cursors: seq<nat>, lo: nat, mid: nat, hi: nat, d: nat)
    requires CursorsBelow(cursors, d) && lo <= mid <= hi
    ensures Advance(Advance(cursors, lo, mid, d), mid, hi, d) == Advance(cursors, lo, hi, d)
  {
  }

  /** A reordered file list is as well formed as the original and has the same length. */
  lemma PermutedFiles(before: seq<BinaryFile>, after: seq<BinaryFile>, fmt: FileFormat)
    requires fmt.Valid() && FilesWellFormed(before, fmt) && multiset(before) == multiset(after)
    ensures FilesWellFormed(after, fmt)
    ensures TotalSamples(before, fmt).Ok? == TotalSamples(after, fmt).Ok?
    ensures TotalSamples(before, fmt).Ok? ==> TotalSamples(before, fmt).value == TotalSamples(after, fmt).value
  {
    TotalSamplesPermutation(before, after, fmt);
    forall k | 0 <= k < |after| ensures WellFormed(after[k], fmt) {
      assert after[k] in multiset(before);
    }
  }

  /** Moving the cursor of position i one copy on, modulo d, is advancing the range i .. i. */
  lemma AdvanceOne(cursors: seq<nat>, i: nat, d: nat)
    requires d > 0 && CursorsBelow(cursors, d) && i < |cursors|
    ensures cursors[i := (cursors[i] + 1) % d] == Advance(cursors, i, i + 1, d)
  {
    var after := Advance(cursors, i, i + 1, d);
    var moved := cursors[i := (cursors[i] + 1) % d];
    assert after[i] == NextCopy(cursors[i], d) == moved[i];
    assert forall k :: 0 <= k < |cursors| ==> after[k] == moved[k];
  }

  /** The slice a copy's cursor selects, reshaped into records, is that copy's FileRows. */
  lemma ReadSliceRows(f: BinaryFile, fmt: FileFormat, cursor: nat, elems: seq<int>)
    requires fmt.Valid() && WellFormed(f, fmt) && Aligned(f, fmt)
    requires cursor < fmt.duplicationFactor
    requires elems == ReadSlice(f, fmt, cursor)
    ensures |elems| == (|elems| / fmt.sampleSize) * fmt.sampleSize
    ensures Reshape(elems, |elems| / fmt.sampleSize, fmt.sampleSize) == FileRows(f, fmt, cursor)
  {
    MulDivExact(SamplesInFile(f, fmt).value, fmt.sampleSize);
  }

  /** A run reads only the cursors of the positions it loads. */
  lemma {:induction false} LoadedRunFrame(files: seq<BinaryFile>, fmt: FileFormat, before: seq<nat>, after: seq<nat>,
                                          start: nat, loaded: seq<seq<Row>>, shuffled: bool)
    requires fmt.Valid() && FilesWellFormed(files, fmt)
    requires |before| == |files| && CursorsBelow(before, fmt.duplicationFactor)
    requires |after| == |files| && CursorsBelow(after, fmt.duplicationFactor)
    requires forall k :: start <= k < |files| ==> after[k] == before[k]
    requires LoadedRun(files, fmt, after, start, loaded, shuffled)
    ensures LoadedRun(files, fmt, before, start, loaded, shuffled)
    decreases |loaded|
  {
    if loaded != [] {
      LoadedRunFrame(files, fmt, before, after, start + 1, loaded[1..], shuffled);
    }
  }

  /** A run of loads from position start + 1 onward, preceded by a load at start. */
  lemma LoadedRunCons(files: seq<BinaryFile>, fmt: FileFormat, before: seq<nat>, after: seq<nat>, start: nat,
                      first: seq<Row>, rest: seq<seq<Row>>, shuffled: bool)
    requires fmt.Valid() && FilesWellFormed(files, fmt)
    requires |before| == |files| && CursorsBelow(before, fmt.duplicationFactor)
    requires |after| == |files| && CursorsBelow(after, fmt.duplicationFactor)
    requires LoadOf(files, fmt, before, start, first, shuffled)
    requires after == Advance(before, start, start + 1, fmt.duplicationFactor)
    requires LoadedRun(files, fmt, after, start + 1, rest, shuffled)
    ensures LoadedRun(files, fmt, before, start, [first] + rest, shuffled)
  {
    LoadedRunFrame(files, fmt, before, after, start + 1, rest, shuffled);
    assert ([first] + rest)[1..] == rest;
  }

  /**
   * Rows handed out after a load: the unread rows `prev` of the old buffer, then
   * what the later loads delivered.
   */
  lemma StreamCons(prev: seq<Row>, first: seq<Row>, rest: seq<seq<Row>>, got: seq<Row>, tail: seq<Row>)
    ensures |prev + Flatten([first] + rest)| == |prev| + |first + Flatten(rest)|
    ensures got + tail == first + Flatten(rest) ==> (prev + got) + tail == prev + Flatten([first] + rest)
  {
    var loaded := [first] + rest;
    FlattenFront(loaded);
    assert loaded[1..] == rest;
  }

  /**
   * What handing out n rows does, from a state (cursors c0, next file fi0, unread
   * rows unread0) to a state (c1, fi1, unread1), having loaded the buffers
   * `loaded`: the loads are those of the files at fi0, fi0 + 1, ... at their
   * cursors, each of those cursors moves one copy on, and
   * - on success the n rows returned followed by the rows left unread are the
   *   rows unread before followed by everything loaded;
   * - StopIteration means the files ran out with fewer than n rows available;
   * - any other error is the misaligned file at position fi1;
   * - on an error the unread rows are those of the last file loaded, or the old ones
   *   when nothing was loaded.
   */
  ghost predicate Delivers(files: seq<BinaryFile>, fmt: FileFormat, shuffled: bool, n: nat,
                           c0: seq<nat>, fi0: nat, unread0: seq<Row>,
                           c1: seq<nat>, fi1: nat, unread1: seq<Row>,
                           r: Result<seq<Row>, LoaderError>, loaded: seq<seq<Row>>)
    requires fmt.Valid() && FilesWellFormed(files, fmt)
    requires |c0| == |files| && CursorsBelow(c0, fmt.duplicationFactor)
  {
    fi1 == fi0 + |loaded| && fi1 <= |files| &&
    LoadedRun(files, fmt, c0, fi0, loaded, shuffled) &&
    c1 == Advance(c0, fi0, fi1, fmt.duplicationFactor) &&
    (r.Ok? ==> |r.value| == n && r.value + unread1 == unread0 + Flatten(loaded)) &&
    (r == Err(StopIteration) ==> fi1 == |files| && |unread0 + Flatten(loaded)| < n) &&
    (r.Err? && r.error != StopIteration ==>
       fi1 < |files| && !Aligned(files[fi1], fmt) && r.error == Misaligned(files[fi1].name)) &&
    (r.Err? ==> unread1 == (if loaded == [] then unread0 else loaded[|loaded| - 1]))
  }

  /** Enough unread rows: the first n are handed out and nothing is loaded. */
  lemma DeliversFromBuffer(files: seq<BinaryFile>, fmt: FileFormat, shuffled: bool, n: nat,
                           c: seq<nat>, fi: nat, data: seq<Row>, dataIndex: nat)
    requires fmt.Valid() && FilesWellFormed(files, fmt)
    requires |c| == |files| && CursorsBelow(c, fmt.duplicationFactor)
    requires fi <= |files| && dataIndex + n <= |data|
    ensures Delivers(files, fmt, shuffled, n, c, fi, data[dataIndex..], c, fi, data[dataIndex + n..],
                     Ok(data[dataIndex..dataIndex + n]), [])
  {
    assert data[dataIndex..] == data[dataIndex..dataIndex + n] + data[dataIndex + n..];
    AdvanceNothing(c, fi, fmt.duplicationFactor);
  }

  /** Too few unread rows and no next buffer: the error of the failed load, nothing loaded. */
  lemma DeliversNoLoad(files: seq<BinaryFile>, fmt: FileFormat, shuffled: bool, n: nat,
                       c: seq<nat>, fi: nat, unread: seq<Row>, e: LoaderError)
    requires fmt.Valid() && FilesWellFormed(files, fmt)
    requires |c| == |files| && CursorsBelow(c, fmt.duplicationFactor)
    requires fi <= |files| && |unread| < n
    requires e == StopIteration ==> fi == |files|
    requires e != StopIteration ==> fi < |files| && !Aligned(files[fi], fmt) && e == Misaligned(files[fi].name)
    ensures Delivers(files, fmt, shuffled, n, c, fi, unread, c, fi, unread, Err(e), [])
  {
    assert Flatten<Row>([]) == [];
    AdvanceNothing(c, fi, fmt.duplicationFactor);
  }

  /**
   * Too few unread rows `prev`: after loading `first` from position fi0, handing
   * out the missing n - |prev| rows completes handing out n rows.
   */
  lemma DeliversAfterLoad(files: seq<BinaryFile>, fmt: FileFormat, shuffled: bool, n: nat,
                          c0: seq<nat>, fi0: nat, prev: seq<Row>, first: seq<Row>,
                          c2: seq<nat>, fi2: nat, unread2: seq<Row>,
                          r: Result<seq<Row>, LoaderError>, rest: seq<seq<Row>>)
    requires fmt.Valid() && FilesWellFormed(files, fmt)
    requires |c0| == |files| && CursorsBelow(c0, fmt.duplicationFactor)
    requires |prev| < n && LoadOf(files, fmt, c0, fi0, first, shuffled)
    requires Delivers(files, fmt, shuffled, n - |prev|, Advance(c0, fi0, fi0 + 1, fmt.duplicationFactor), fi0 + 1,
                      first, c2, fi2, unread2, r, rest)
    ensures Delivers(files, fmt, shuffled, n, c0, fi0, prev, c2, fi2, unread2,
                     if r.Ok? then Ok(prev + r.value) else r, [first] + rest)
  {
    var c1 := Advance(c0, fi0, fi0 + 1, fmt.duplicationFactor);
    LoadedRunCons(files, fmt, c0, c1, fi0, first, rest, shuffled);
    AdvanceCompose(c0, fi0, fi0 + 1, fi2, fmt.duplicationFactor);
    if r.Ok? {
      StreamCons(prev, first, rest, r.value, unread2);
    } else {
      StreamCons(prev, first, rest, [], []);
    }
  }

  /**
   * After StopIteration every file is loaded and fewer than n rows are left unread, so
   * the next request for n rows loads nothing, raises StopIteration again and leaves
   * the unread rows as they were.
   */
  lemma StopIterationRepeats(files: seq<BinaryFile>, fmt: FileFormat, shuffled: bool, n: nat,
                             c0: seq<nat>, fi0: nat, unread0: seq<Row>,
                             c1: seq<nat>, fi1: nat, unread1: seq<Row>, loaded: seq<seq<Row>>,
                             c2: seq<nat>, fi2: nat, unread2: seq<Row>,
                             r: Result<seq<Row>, LoaderError>, loaded2: seq<seq<Row>>)
    requires fmt.Valid() && FilesWellFormed(files, fmt)
    requires |c0| == |files| && CursorsBelow(c0, fmt.duplicationFactor)
    requires |c1| == |files| && CursorsBelow(c1, fmt.duplicationFactor)
    requires Delivers(files, fmt, shuffled, n, c0, fi0, unread0, c1, fi1, unread1, Err(StopIteration), loaded)
    requires Delivers(files, fmt, shuffled, n, c1, fi1, unread1, c2, fi2, unread2, r, loaded2)
    ensures r == Err(StopIteration) && loaded2 == [] && fi2 == fi1 && unread2 == unread1
  {
  }

  class BinaryDataLoader {
    /** The files the input patterns expanded to, in their current (possibly shuffled) order. */
    var files: seq<BinaryFile>
    /** Width of each field of a record. */
    const sampleSizes: seq<nat>
    /** Record width (the sum of sampleSizes), element size in bytes, duplication factor. */
    const fmt: FileFormat
    const batchSize: nat
    const shuffle: bool
    /** Position of the next file to load. */
    var fileIndex: nat
    /** Position of the next unread row of `data`. */
    var dataIndex: nat
    /** Per file position: which copy of the file the next load reads. */
    var fileDuplicationIndex: seq<nat>
    /** The rows of the most recently loaded file. */
    var data: seq<Row>
    /** Memoised length in batches. */
    var len: Option<nat>

    ghost predicate Valid()
      reads this
    {
      fmt.Valid() && fmt.sampleSize == Sum(sampleSizes) && batchSize > 0 &&
      FilesWellFormed(files, fmt) &&
      |fileDuplicationIndex| == |files| && CursorsBelow(fileDuplicationIndex, fmt.duplicationFactor) &&
      fileIndex <= |files| && dataIndex <= |data| &&
      RowsOfWidth(data, fmt.sampleSize)
    }

    /** A memoised length is the length of the current file list. */
    ghost predicate MemoValid()
      reads this`files, this`len
    {
      fmt.Valid() && batchSize > 0 &&
      (len.Some? ==> TotalSamples(files, fmt).Ok? && len.value == TotalSamples(files, fmt).value / batchSize)
    }

    /** The rows of the current buffer not yet handed out. */
    ghost function Unread(): seq<Row>
      reads this
      requires dataIndex <= |data|
    {
      data[dataIndex..]
    }

    /**
     * Every file starts at copy `startDataAtEpoch mod duplicationFactor`; nothing is
     * loaded and the length is unknown.
     */
    constructor (files: seq<BinaryFile>, sampleSizes: seq<nat>, batchSize: nat, itemSize: nat,
                 shuffle: bool, duplicationFactor: nat, startDataAtEpoch: int)
      requires batchSize > 0 && itemSize > 0 && duplicationFactor > 0 && Sum(sampleSizes) > 0
      requires FilesWellFormed(files, FileFormat(Sum(sampleSizes), itemSize, duplicationFactor))
      ensures Valid() && MemoValid()
      ensures this.files == files && this.sampleSizes == sampleSizes && this.batchSize == batchSize
      ensures fmt == FileFormat(Sum(sampleSizes), itemSize, duplicationFactor) && this.shuffle == shuffle
      ensures fileIndex == 0 && dataIndex == 0 && data == [] && len == None
      ensures |fileDuplicationIndex| == |files|
      ensures forall k :: 0 <= k < |files| ==> fileDuplicationIndex[k] == startDataAtEpoch % duplicationFactor
    {
      this.files := files;
      this.sampleSizes := sampleSizes;
      fmt := FileFormat(Sum(sampleSizes), itemSize, duplicationFactor);
      this.batchSize := batchSize;
      this.shuffle := shuffle;
      fileIndex := 0;
      dataIndex := 0;
      fileDuplicationIndex := seq(|files|, _ => startDataAtEpoch % duplicationFactor);
      data := [];
      len := None;
    }

    /** Length in batches: all records of one copy of every file, floor-divided by the batch size. */
    method Length() returns (r: Result<nat, LoaderError>)
      requires Valid() && MemoValid()
      modifies this
      ensures Valid() && MemoValid()
      ensures files == old(files) && fileIndex == old(fileIndex) && dataIndex == old(dataIndex)
      ensures data == old(data) && fileDuplicationIndex == old(fileDuplicationIndex)
      ensures r.Ok? <==> TotalSamples(files, fmt).Ok?
      ensures r.Ok? ==> r.value == TotalSamples(files, fmt).value / batchSize && len == Some(r.value)
      ensures r.Err? ==> r.error == TotalSamples(files, fmt).error && len == old(len)
    {
      if len.None? {
        var total := TotalSamples(files, fmt);
        if total.Err? {
          return Err(total.error);
        }
        len := Some(total.value / batchSize);
      }
      return Ok(len.value);
    }

    /**
     * Reads the next file: one copy's worth of records at the file's duplication
     * cursor, reshaped into rows; advances that position's cursor cyclically and
     * moves on to the next file. A misaligned file raises before anything changes.
     */
    method LoadFile() returns (r: Result<seq<Row>, LoaderError>)
      requires Valid() && fileIndex < |files|
      modifies this
      ensures Valid()
      ensures files == old(files) && data == old(data) && len == old(len)
      ensures r.Ok? <==> Aligned(files[old(fileIndex)], fmt)
      ensures r.Err? ==> r.error == Misaligned(files[old(fileIndex)].name)
      ensures r.Err? ==> fileIndex == old(fileIndex) && dataIndex == old(dataIndex)
      ensures r.Err? ==> fileDuplicationIndex == old(fileDuplicationIndex)
      ensures r.Ok? ==> r.value == FileRows(files[old(fileIndex)], fmt, old(fileDuplicationIndex[fileIndex]))
      ensures r.Ok? ==> fileIndex == old(fileIndex) + 1 && dataIndex == 0
      ensures r.Ok? ==> fileDuplicationIndex == Advance(old(fileDuplicationIndex), old(fileIndex), fileIndex,
                                                           fmt.duplicationFactor)
    {
      var f := files[fileIndex];
      var samples := SamplesInFile(f, fmt);
      if samples.Err? {
        return Err(samples.error);
      }
      var cursor := fileDuplicationIndex[fileIndex];
      var count := samples.value * fmt.sampleSize;
      CopyInFile(f, fmt, cursor, count);
      var newData := f.elements[count * cursor..count * cursor + count];
      ReadSliceRows(f, fmt, cursor, newData);
      var rows := Reshape(newData, |newData| / fmt.sampleSize, fmt.sampleSize);
      AdvanceOne(fileDuplicationIndex, fileIndex, fmt.duplicationFactor);
      fileDuplicationIndex := fileDuplicationIndex[fileIndex := (cursor + 1) % fmt.duplicationFactor];
      fileIndex := fileIndex + 1;
      dataIndex := 0;
      return Ok(rows);
    }

    /**
     * Makes the next file the current buffer, its rows shuffled when shuffling is
     * on; past the last file the epoch ends with StopIteration and nothing changes.
     */
    method LoadData() returns (r: Result<(), LoaderError>)
      requires Valid()
      modifies this
      ensures Valid()
      ensures files == old(files) && len == old(len)
      ensures old(fileIndex) >= |files| ==> r == Err(StopIteration)
      ensures r.Err? ==> fileIndex == old(fileIndex) && dataIndex == old(dataIndex) && data == old(data)
      ensures r.Err? ==> fileDuplicationIndex == old(fileDuplicationIndex)
      ensures old(fileIndex) < |files| ==> (r.Ok? <==> Aligned(files[old(fileIndex)], fmt))
      ensures old(fileIndex) < |files| && r.Err? ==> r.error == Misaligned(files[old(fileIndex)].name)
      ensures r.Ok? ==> old(fileIndex) < |files| && fileIndex == old(fileIndex) + 1 && dataIndex == 0
      ensures r.Ok? ==> LoadOf(files, fmt, old(fileDuplicationIndex), old(fileIndex), data, shuffle)
      ensures r.Ok? ==> fileDuplicationIndex == Advance(old(fileDuplicationIndex), old(fileIndex), fileIndex,
                                                           fmt.duplicationFactor)
    {
      if fileIndex >= |files| {
        return Err(StopIteration);
      }
      var loaded := LoadFile();
      if loaded.Err? {
        return Err(loaded.error);
      }
      data := loaded.value;
      if shuffle {
        data := Shuffle(data);
        PermutedRowsOfWidth(data, loaded.value, fmt.sampleSize);
      }
      return Ok(());
    }

    /**
     * Hands out the next n rows: from the current buffer when it holds enough,
     * otherwise its remainder followed by rows of the following files (Delivers
     * states the outcome). StopIteration means the files ran out with fewer than
     * n rows left: the remainder is dropped.
     */
    method GetData(n: nat) returns (r: Result<seq<Row>, LoaderError>, ghost loaded: seq<seq<Row>>)
      requires Valid()
      modifies this
      decreases |files| - fileIndex, 1
      ensures Valid()
      ensures files == old(files) && len == old(len)
      ensures Delivers(files, fmt, shuffle, n, old(fileDuplicationIndex), old(fileIndex), old(Unread()),
                       fileDuplicationIndex, fileIndex, Unread(), r, loaded)
      ensures r.Ok? ==> RowsOfWidth(r.value, fmt.sampleSize)
    {
      if dataIndex + n > |data| {
        r, loaded := GetDataAcrossFiles(n);
      } else {
        DeliversFromBuffer(files, fmt, shuffle, n, fileDuplicationIndex, fileIndex, data, dataIndex);
        RowsOfWidthSlice(data, dataIndex, dataIndex + n, fmt.sampleSize);
        r := Ok(data[dataIndex..dataIndex + n]);
        dataIndex := dataIndex + n;
        loaded := [];
      }
    }

    /** The branch of GetData where the current buffer is too short: its rest, then the next file onward. */
    method GetDataAcrossFiles(n: nat) returns (r: Result<seq<Row>, LoaderError>, ghost loaded: seq<seq<Row>>)
      requires Valid() && dataIndex + n > |data|
      modifies this
      decreases |files| - fileIndex, 0
      ensures Valid()
      ensures files == old(files) && len == old(len)
      ensures Delivers(files, fmt, shuffle, n, old(fileDuplicationIndex), old(fileIndex), old(Unread()),
                       fileDuplicationIndex, fileIndex, Unread(), r, loaded)
      ensures r.Ok? ==> RowsOfWidth(r.value, fmt.sampleSize)
    {
      var prev := data[dataIndex..];
      var stillRequired := n - |prev|;
      var load := LoadData();
      if load.Err? {
        DeliversNoLoad(files, fmt, shuffle, n, old(fileDuplicationIndex), old(fileIndex), old(Unread()), load.error);
        return Err(load.error), [];
      }
      ghost var first := data;
      var next, rest := GetData(stillRequired);
      loaded := [first] + rest;
      DeliversAfterLoad(files, fmt, shuffle, n, old(fileDuplicationIndex), old(fileIndex), old(Unread()), first,
                        fileDuplicationIndex, fileIndex, Unread(), next, rest);
      if next.Err? {
        return next, loaded;
      }
      RowsOfWidthSlice(old(data), old(dataIndex), |old(data)|, fmt.sampleSize);
      RowsOfWidthAppend(prev, next.value, fmt.sampleSize);
      r := Ok(prev + next.value);
    }

    /**
     * Starts an epoch: back to the first file, the file order shuffled when
     * shuffling is on (the duplication cursors stay with their positions), and the
     * first file loaded.
     */
    method Start() returns (r: Result<(), LoaderError>)
      requires Valid() && MemoValid()
      modifies this
      ensures Valid() && MemoValid()
      ensures multiset(files) == multiset(old(files)) && (!shuffle ==> files == old(files))
      ensures len == old(len)
      ensures files == [] ==> r == Err(StopIteration)
      ensures r.Err? ==> fileIndex == 0 && fileDuplicationIndex == old(fileDuplicationIndex)
      ensures r.Err? ==> dataIndex == 0 && data == old(data)
      ensures files != [] && r.Err? ==> !Aligned(files[0], fmt) && r.error == Misaligned(files[0].name)
      ensures r.Ok? ==> files != [] && Aligned(files[0], fmt) && fileIndex == 1 && dataIndex == 0
      ensures r.Ok? ==> LoadOf(files, fmt, old(fileDuplicationIndex), 0, data, shuffle)
      ensures r.Ok? ==> fileDuplicationIndex == Advance(old(fileDuplicationIndex), 0, 1, fmt.duplicationFactor)
    {
      fileIndex := 0;
      dataIndex := 0;
      if shuffle {
        ghost var before := files;
        files := Shuffle(files);
        PermutedFiles(before, files, fmt);
      }
      r := LoadData();
    }

    /**
     * The next batch: batchSize rows taken as GetData takes them, split column-wise
     * into one block per field.
     */
    method Next() returns (r: Result<seq<seq<Row>>, LoaderError>, ghost batch: Result<seq<Row>, LoaderError>,
                           ghost loaded: seq<seq<Row>>)
      requires Valid()
      modifies this
      ensures Valid()
      ensures files == old(files) && len == old(len)
      ensures Delivers(files, fmt, shuffle, batchSize, old(fileDuplicationIndex), old(fileIndex), old(Unread()),
                       fileDuplicationIndex, fileIndex, Unread(), batch, loaded)
      ensures r.Err? <==> batch.Err?
      ensures r.Err? ==> r.error == batch.error
      ensures r.Ok? ==> RowsOfWidth(batch.value, Sum(sampleSizes)) && |r.value| == |sampleSizes|
      ensures r.Ok? ==> forall i :: 0 <= i < |sampleSizes| ==> IsFieldBlock(r.value[i], batch.value, sampleSizes, i)
    {
      var data;
      data, loaded := GetData(batchSize);
      batch := data;
      if data.Err? {
        return Err(data.error), batch, loaded;
      }
      var items := SplitBatch(data.value, sampleSizes);
      r := Ok(items);
    }
  }
}
