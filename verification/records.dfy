/**
 * Fixed-width sample records: splitting a record into its fields, the arithmetic
 * that maps a binary file of duplicated records to the slice one epoch reads, the
 * reshaping of that slice into rows, and the in-place shuffle of a list.
 */
module Records {
  import opened Common

  /** One flat sample record: `sampleSize` integer elements. */
  type Row = seq<int>

  /** The exceptions a loader raises. */
  datatype LoaderError =
    | StopIteration                 // the designed end of an epoch
    | Misaligned(file: string)      // file size is not a whole number of records
    | NothingToConcatenate          // np.concatenate of an empty list
    | EpochsToCacheBelowOne
    | MissingGeneratedRanges
    | EmptyRandomRange(field: nat)  // np.random.randint(0, 0)
    | MissingField(index: nat)      // items[index] on a shorter list

  // ---------------------------------------------------------------------------
  // Splitting a record into fields

  /** The fields of `row`, in order, field i being `widths[i]` elements wide. */
  function SplitRow(row: Row, widths: seq<nat>): (fields: seq<Row>)
    requires |row| == Sum(widths)
    ensures |fields| == |widths|
    ensures forall i :: 0 <= i < |widths| ==> |fields[i]| == widths[i]
    ensures Flatten(fields) == row
    decreases |widths|
  {
    if widths == [] then []
    else
      var cut := |row| - widths[|widths| - 1];
      var init := SplitRow(row[..cut], widths[..|widths| - 1]);
      assert (init + [row[cut..]])[..|init|] == init;
      init + [row[cut..]]
  }

  /** Field i of a split record is the slice that starts at the sum of the widths before it. */
  lemma {:induction false} SplitRowAt(row: Row, widths: seq<nat>, i: nat)
    requires |row| == Sum(widths) && i < |widths|
    ensures Sum(widths[..i]) + widths[i] <= |row|
    ensures SplitRow(row, widths)[i] == row[Sum(widths[..i])..Sum(widths[..i]) + widths[i]]
    decreases |widths|
  {
    var n := |widths| - 1;
    var cut := |row| - widths[n];
    var init := widths[..n];
    var fields := SplitRow(row[..cut], init);
    assert SplitRow(row, widths) == fields + [row[cut..]];
    if i == n {
      assert init == widths[..i];
    } else {
      SplitRowAt(row[..cut], init, i);
      assert init[..i] == widths[..i];
      var lo := Sum(widths[..i]);
      assert fields[i] == row[..cut][lo..lo + widths[i]];
      assert row[..cut][lo..lo + widths[i]] == row[lo..lo + widths[i]];
    }
  }

  /** A field ends within the record. */
  lemma {:induction false} PrefixSumBound(widths: seq<nat>, i: nat)
    requires i < |widths|
    ensures Sum(widths[..i]) + widths[i] <= Sum(widths)
  {
    SumPrefix(widths, i);
    assert widths == widths[..i + 1] + widths[i + 1..];
    SumAppend(widths[..i + 1], widths[i + 1..]);
  }

  /** The elements of column `b` of a list of fields: record b, field by field. */
  function Gather(items: seq<seq<Row>>, b: nat): (fields: seq<Row>)
    requires forall i :: 0 <= i < |items| ==> b < |items[i]|
    ensures |fields| == |items|
    ensures forall i :: 0 <= i < |items| ==> fields[i] == items[i][b]
  {
    seq(|items|, i requires 0 <= i < |items| => items[i][b])
  }

  /** `block` holds field i of every record of a batch, record by record. */
  predicate IsFieldBlock(block: seq<Row>, batch: seq<Row>, widths: seq<nat>, i: nat)
    requires forall b :: 0 <= b < |batch| ==> |batch[b]| == Sum(widths)
    requires i < |widths|
  {
    |block| == |batch| && forall b :: 0 <= b < |batch| ==> block[b] == SplitRow(batch[b], widths)[i]
  }

  /** Column range `[Sum(widths[..i]), + widths[i])` of a batch is its field-i block. */
  lemma ColumnIsFieldBlock(batch: seq<Row>, widths: seq<nat>, i: nat, lo: nat, hi: nat, column: seq<Row>)
    requires forall b :: 0 <= b < |batch| ==> |batch[b]| == Sum(widths)
    requires i < |widths|
    requires lo == Sum(widths[..i]) && hi == lo + widths[i] && hi <= Sum(widths)
    requires |column| == |batch|
    requires forall b :: 0 <= b < |batch| ==> column[b] == batch[b][lo..hi]
    ensures IsFieldBlock(column, batch, widths, i)
  {
    forall b | 0 <= b < |batch| ensures column[b] == SplitRow(batch[b], widths)[i] {
      SplitRowSlice(batch[b], widths, i, lo, hi);
    }
  }

  lemma SplitRowSlice(row: Row, widths: seq<nat>, i: nat, lo: nat, hi: nat)
    requires |row| == Sum(widths) && i < |widths|
    requires lo == Sum(widths[..i]) && hi == lo + widths[i] && hi <= |row|
    ensures row[lo..hi] == SplitRow(row, widths)[i]
  {
    SplitRowAt(row, widths, i);
  }

  /**
   * Splits a batch of records into one block per field, block i holding columns
   * `[total, total + widths[i])` of every record, where total is the sum of the
   * widths before it.
   */
  method SplitBatch(batch: seq<Row>, widths: seq<nat>) returns (items: seq<seq<Row>>)
    requires forall b :: 0 <= b < |batch| ==> |batch[b]| == Sum(widths)
    ensures |items| == |widths|
    ensures forall i :: 0 <= i < |widths| ==> IsFieldBlock(items[i], batch, widths, i)
  {
    items := [];
    var total := 0;
    for i := 0 to |widths|
      invariant |items| == i
      invariant total == Sum(widths[..i])
      invariant forall k :: 0 <= k < i ==> IsFieldBlock(items[k], batch, widths, k)
    {
      var size := widths[i];
      PrefixSumBound(widths, i);
      var column := seq(|batch|, b requires 0 <= b < |batch| => batch[b][total..total + size]);
      ColumnIsFieldBlock(batch, widths, i, total, total + size, column);
      items := items + [column];
      SumPrefix(widths, i);
      total := total + size;
    }
  }

  /**
   * The blocks of a split batch have the field widths, and gathering record b
   * back from them, field by field, reproduces record b.
   */
  lemma SplitBatchRoundTrip(batch: seq<Row>, widths: seq<nat>, items: seq<seq<Row>>, b: nat)
    requires forall b :: 0 <= b < |batch| ==> |batch[b]| == Sum(widths)
    requires |items| == |widths| && b < |batch|
    requires forall i :: 0 <= i < |widths| ==> IsFieldBlock(items[i], batch, widths, i)
    ensures forall i :: 0 <= i < |widths| ==> |items[i]| == |batch| && |items[i][b]| == widths[i]
    ensures Gather(items, b) == SplitRow(batch[b], widths)
    ensures Flatten(Gather(items, b)) == batch[b]
  {
    var row := batch[b];
    assert |row| == Sum(widths);
    var fields := SplitRow(row, widths);
    forall i | 0 <= i < |widths| ensures |items[i]| == |batch| && items[i][b] == fields[i] {
      FieldBlockAt(items[i], batch, widths, i, b);
    }
    GatherFields(items, b, fields);
  }

  /** Record b's entry of the i-th block is record b's i-th field. */
  lemma FieldBlockAt(block: seq<Row>, batch: seq<Row>, widths: seq<nat>, i: nat, b: nat)
    requires forall b :: 0 <= b < |batch| ==> |batch[b]| == Sum(widths)
    requires i < |widths| && b < |batch|
    requires IsFieldBlock(block, batch, widths, i)
    ensures |block| == |batch| && block[b] == SplitRow(batch[b], widths)[i]
  {
  }

  /** Gathering entry b of each block yields the fields those entries hold. */
  lemma GatherFields(items: seq<seq<Row>>, b: nat, fields: seq<Row>)
    requires |items| == |fields|
    requires forall i :: 0 <= i < |items| ==> b < |items[i]| && items[i][b] == fields[i]
    ensures Gather(items, b) == fields
  {
  }

  // ---------------------------------------------------------------------------
  // Binary files of duplicated records

  /**
   * A binary input file: its size in bytes and the elements `np.fromfile` decodes
   * from it. The file system and the decoding of bytes are not part of this model.
   */
  datatype BinaryFile = BinaryFile(name: string, numBytes: nat, elements: seq<int>)

  /** What a loader knows about its files: record width, element byte size, duplication factor. */
  datatype FileFormat = FileFormat(sampleSize: nat, itemSize: nat, duplicationFactor: nat)
  {
    predicate Valid() { sampleSize > 0 && itemSize > 0 && duplicationFactor > 0 }
    function BytesPerSample(): nat { sampleSize * itemSize }
  }

  /** The decoded elements are every whole element of the file's bytes. */
  predicate WellFormed(f: BinaryFile, fmt: FileFormat)
    requires fmt.Valid()
  {
    |f.elements| == f.numBytes / fmt.itemSize
  }

  predicate Aligned(f: BinaryFile, fmt: FileFormat)
    requires fmt.Valid()
  {
    f.numBytes % fmt.BytesPerSample() == 0
  }

  lemma BytesPerSamplePositive(fmt: FileFormat)
    requires fmt.Valid()
    ensures fmt.BytesPerSample() > 0
  {
    MulPositive(fmt.sampleSize, fmt.itemSize);
  }

  lemma MulPositive(a: nat, b: nat)
    requires a > 0 && b > 0
    ensures a * b > 0
  {
  }

  /**
   * Records of one copy in a file: the file's record count floor-divided by the
   * duplication factor, or `Misaligned` when the size is not a whole number of records.
   */
  function SamplesInFile(f: BinaryFile, fmt: FileFormat): (r: Result<nat, LoaderError>)
    requires fmt.Valid()
    ensures r.Ok? <==> Aligned(f, fmt)
    ensures r.Err? ==> r.error == Misaligned(f.name)
    ensures r.Ok? ==> IsFloorQuotient(r.value, f.numBytes / fmt.BytesPerSample(), fmt.duplicationFactor)
  {
    BytesPerSamplePositive(fmt);
    var bytesPerSample := fmt.BytesPerSample();
    if f.numBytes % bytesPerSample != 0 then Err(Misaligned(f.name))
    else
      var duplicated := f.numBytes / bytesPerSample;
      DivBounds(duplicated, fmt.duplicationFactor);
      Ok(duplicated / fmt.duplicationFactor)
  }

  /** q is the floor of a / d: q copies of d fit in a, q + 1 do not. */
  predicate IsFloorQuotient(q: nat, a: nat, d: nat)
  {
    q * d <= a < q * d + d
  }

  lemma DivBounds(a: nat, d: nat)
    requires d > 0
    ensures IsFloorQuotient(a / d, a, d)
  {
  }

  /** A file of exactly k copies-worth of records per duplicate holds k records per copy. */
  lemma SamplesInExactFile(f: BinaryFile, fmt: FileFormat, k: nat)
    requires fmt.Valid()
    requires f.numBytes == k * fmt.duplicationFactor * fmt.BytesPerSample()
    ensures SamplesInFile(f, fmt) == Ok(k)
  {
    var bps := fmt.BytesPerSample();
    var d := fmt.duplicationFactor;
    BytesPerSamplePositive(fmt);
    assert f.numBytes == (k * d) * bps;
    MulDivExact(k * d, bps);
    MulDivExact(k, d);
  }

  lemma MulDivExact(a: nat, b: nat)
    requires b > 0
    ensures (a * b) % b == 0 && (a * b) / b == a
  {
    var p := a * b;
    DivisionUnique(p, b, a, 0);
  }

  /** Euclidean division has one quotient and remainder. */
  lemma DivisionUnique(p: int, b: int, q: int, r: int)
    requires b > 0 && 0 <= r < b && p == q * b + r
    ensures p / b == q && p % b == r
  {
    var q', r' := p / b, p % b;
    assert p == q' * b + r' && 0 <= r' < b;
    MulSub(q, q', b);
    if q > q' {
      MulAtLeast(q - q', b);
    } else if q < q' {
      MulAtLeast(q' - q, b);
      MulSub(q', q, b);
    }
  }

  lemma MulSub(x: int, y: int, b: int)
    ensures x * b - y * b == (x - y) * b
  {
  }

  lemma MulAtLeast(t: int, b: int)
    requires t >= 1 && b > 0
    ensures t * b >= b
  {
  }

  /** Left fold of SamplesInFile over the files, raising at the first misaligned one. */
  function TotalSamples(files: seq<BinaryFile>, fmt: FileFormat): (r: Result<nat, LoaderError>)
    requires fmt.Valid()
    ensures r.Ok? <==> AllAligned(files, fmt)
    ensures r.Err? ==> exists k :: 0 <= k < |files| && !Aligned(files[k], fmt) && r.error == Misaligned(files[k].name)
                         && forall j :: 0 <= j < k ==> Aligned(files[j], fmt)
    ensures r.Ok? ==> r.value == SampleTotal(files, fmt)
    decreases |files|
  {
    if files == [] then Ok(0)
    else
      var n := |files| - 1;
      assert forall k :: 0 <= k < n ==> files[..n][k] == files[k];
      match TotalSamples(files[..n], fmt)
      case Err(e) => Err(e)
      case Ok(a) =>
        match SamplesInFile(files[n], fmt)
        case Err(e) => Err(e)
        case Ok(s) => Ok(a + s)
  }

  /** Records per copy summed over aligned files, the value TotalSamples returns. */
  function SampleTotal(files: seq<BinaryFile>, fmt: FileFormat): nat
    requires fmt.Valid() && AllAligned(files, fmt)
    decreases |files|
  {
    if files == [] then 0
    else
      var n := |files| - 1;
      assert AllAligned(files[..n], fmt) by {
        forall k | 0 <= k < n ensures Aligned(files[..n][k], fmt) {
          assert files[..n][k] == files[k];
        }
      }
      SampleTotal(files[..n], fmt) + SamplesInFile(files[n], fmt).value
  }

  lemma AllAlignedAppend(xs: seq<BinaryFile>, ys: seq<BinaryFile>, fmt: FileFormat)
    requires fmt.Valid()
    ensures AllAligned(xs + ys, fmt) <==> AllAligned(xs, fmt) && AllAligned(ys, fmt)
  {
    if AllAligned(xs, fmt) && AllAligned(ys, fmt) {
      forall k | 0 <= k < |xs + ys| ensures Aligned((xs + ys)[k], fmt) {
        if k < |xs| { assert (xs + ys)[k] == xs[k]; } else { assert (xs + ys)[k] == ys[k - |xs|]; }
      }
    }
    if AllAligned(xs + ys, fmt) {
      forall k | 0 <= k < |xs| ensures Aligned(xs[k], fmt) { assert (xs + ys)[k] == xs[k]; }
      forall k | 0 <= k < |ys| ensures Aligned(ys[k], fmt) { assert (xs + ys)[|xs| + k] == ys[k]; }
    }
  }

  /** Appending files adds their record counts. */
  lemma {:induction false} SampleTotalAppend(xs: seq<BinaryFile>, ys: seq<BinaryFile>, fmt: FileFormat)
    requires fmt.Valid() && AllAligned(xs, fmt) && AllAligned(ys, fmt)
    ensures AllAligned(xs + ys, fmt)
    ensures SampleTotal(xs + ys, fmt) == SampleTotal(xs, fmt) + SampleTotal(ys, fmt)
    decreases |ys|
  {
    AllAlignedAppend(xs, ys, fmt);
    if ys == [] {
      assert xs + ys == xs;
    } else {
      var init := ys[..|ys| - 1];
      assert (xs + ys)[..|xs + ys| - 1] == xs + init;
      AllAlignedAppend(init, [ys[|ys| - 1]], fmt);
      assert ys == init + [ys[|ys| - 1]];
      SampleTotalAppend(xs, init, fmt);
    }
  }

  /** Reordering the files (the epoch shuffle) changes neither the verdict nor the count. */
  lemma TotalSamplesPermutation(xs: seq<BinaryFile>, ys: seq<BinaryFile>, fmt: FileFormat)
    requires fmt.Valid()
    requires multiset(xs) == multiset(ys)
    ensures TotalSamples(xs, fmt).Ok? == TotalSamples(ys, fmt).Ok?
    ensures TotalSamples(xs, fmt).Ok? ==> TotalSamples(xs, fmt).value == TotalSamples(ys, fmt).value
  {
    if AllAligned(xs, fmt) {
      PermutedAligned(xs, ys, fmt);
      SampleTotalPermutation(xs, ys, fmt);
    } else if AllAligned(ys, fmt) {
      PermutedAligned(ys, xs, fmt);
    }
  }

  lemma PermutedAligned(xs: seq<BinaryFile>, ys: seq<BinaryFile>, fmt: FileFormat)
    requires fmt.Valid() && multiset(xs) == multiset(ys) && AllAligned(xs, fmt)
    ensures AllAligned(ys, fmt)
  {
    forall j | 0 <= j < |ys| ensures Aligned(ys[j], fmt) {
      assert ys[j] in multiset(xs);
      var k :| 0 <= k < |xs| && xs[k] == ys[j];
    }
  }

  lemma {:induction false} SampleTotalPermutation(xs: seq<BinaryFile>, ys: seq<BinaryFile>, fmt: FileFormat)
    requires fmt.Valid() && multiset(xs) == multiset(ys)
    requires AllAligned(xs, fmt) && AllAligned(ys, fmt)
    ensures SampleTotal(xs, fmt) == SampleTotal(ys, fmt)
    decreases |xs|
  {
    if xs == [] {
      assert |ys| == |multiset(ys)| == 0;
    } else {
      var n := |xs| - 1;
      var k := RemoveLast(xs, ys);
      var rest := ys[..k] + ys[k + 1..];
      AllAlignedAppend(xs[..n], [xs[n]], fmt);
      assert xs == xs[..n] + [xs[n]];
      SampleTotalSplice(ys, k, fmt);
      SampleTotalPermutation(xs[..n], rest, fmt);
    }
  }

  /** Taking the file at position k out of the list takes its count out of the total. */
  lemma SampleTotalSplice(ys: seq<BinaryFile>, k: nat, fmt: FileFormat)
    requires fmt.Valid() && k < |ys| && AllAligned(ys, fmt)
    ensures AllAligned(ys[..k] + ys[k + 1..], fmt)
    ensures SampleTotal(ys, fmt) == SampleTotal(ys[..k] + ys[k + 1..], fmt) + SamplesInFile(ys[k], fmt).value
  {
    var left, right, x := ys[..k], ys[k + 1..], ys[k];
    assert ys == (left + [x]) + right;
    AllAlignedAppend(left + [x], right, fmt);
    AllAlignedAppend(left, [x], fmt);
    SampleTotalAppend(left + [x], right, fmt);
    SampleTotalAppend(left, right, fmt);
    assert (left + [x])[..k] == left;
  }

  /** The last element of xs sits at some position k of its permutation ys; the rest match. */
  lemma RemoveLast<T>(xs: seq<T>, ys: seq<T>) returns (k: nat)
    requires xs != [] && multiset(xs) == multiset(ys)
    ensures k < |ys| && ys[k] == xs[|xs| - 1]
    ensures multiset(xs[..|xs| - 1]) == multiset(ys[..k] + ys[k + 1..])
  {
    var x := xs[|xs| - 1];
    assert x in multiset(ys);
    k :| 0 <= k < |ys| && ys[k] == x;
    var left, right, init := ys[..k], ys[k + 1..], xs[..|xs| - 1];
    assert ys == left + [x] + right;
    assert xs == init + [x];
    assert multiset(init) == multiset(xs) - multiset{x};
    assert multiset(left + right) == multiset(ys) - multiset{x};
  }

  /** Elements one epoch reads from a file: the record count of one copy times the record width. */
  function ReadCount(f: BinaryFile, fmt: FileFormat): nat
    requires fmt.Valid() && Aligned(f, fmt)
  {
    SamplesInFile(f, fmt).value * fmt.sampleSize
  }

  /** Every copy of a file lies within the file's decoded elements. */
  lemma CopiesFit(f: BinaryFile, fmt: FileFormat)
    requires fmt.Valid() && WellFormed(f, fmt) && Aligned(f, fmt)
    ensures ReadCount(f, fmt) * fmt.duplicationFactor <= |f.elements|
  {
    var bps := fmt.BytesPerSample();
    BytesPerSamplePositive(fmt);
    var q := f.numBytes / bps;
    var s := SamplesInFile(f, fmt).value;
    assert f.numBytes == q * bps;
    assert f.numBytes == (q * fmt.sampleSize) * fmt.itemSize;
    MulDivExact(q * fmt.sampleSize, fmt.itemSize);
    assert |f.elements| == q * fmt.sampleSize;
    assert s * fmt.duplicationFactor <= q;
    MulMonotone(s * fmt.duplicationFactor, q, fmt.sampleSize);
    assert ReadCount(f, fmt) * fmt.duplicationFactor == (s * fmt.duplicationFactor) * fmt.sampleSize;
  }

  lemma MulSucc(a: nat, b: nat)
    ensures a * b + a == a * (b + 1)
  {
  }

  lemma MulMonotone(a: nat, b: nat, c: nat)
    requires a <= b
    ensures a * c <= b * c
  {
  }

  lemma CursorBound(count: nat, cursor: nat, d: nat)
    requires cursor < d
    ensures 0 <= count * cursor && count * cursor + count <= count * d
  {
    MulMonotone(0, cursor, count);
    assert count * cursor + count == count * (cursor + 1);
    MulMonotone(cursor + 1, d, count);
  }

  /**
   * The elements one epoch reads from a file for a duplication cursor: ReadCount
   * elements starting at element offset ReadCount * cursor (byte offset
   * ReadCount * cursor * itemSize).
   */
  function ReadSlice(f: BinaryFile, fmt: FileFormat, cursor: nat): (elems: seq<int>)
    requires fmt.Valid() && WellFormed(f, fmt) && Aligned(f, fmt)
    requires cursor < fmt.duplicationFactor
    ensures |elems| == ReadCount(f, fmt)
  {
    var count := ReadCount(f, fmt);
    CopyInFile(f, fmt, cursor, count);
    f.elements[count * cursor..count * cursor + count]
  }

  /** Copy number `cursor` ends within the file's elements. */
  lemma CopyInFile(f: BinaryFile, fmt: FileFormat, cursor: nat, count: nat)
    requires fmt.Valid() && WellFormed(f, fmt) && Aligned(f, fmt)
    requires cursor < fmt.duplicationFactor && count == ReadCount(f, fmt)
    ensures 0 <= count * cursor && count * cursor + count <= |f.elements|
  {
    CopiesFit(f, fmt);
    CursorBound(count, cursor, fmt.duplicationFactor);
  }

  /** The copies read for cursors 0, 1, ..., d-1 tile the duplicated region of the file, in order. */
  lemma {:induction false} CopiesTile(f: BinaryFile, fmt: FileFormat, d: nat)
    requires fmt.Valid() && WellFormed(f, fmt) && Aligned(f, fmt)
    requires d <= fmt.duplicationFactor
    ensures ReadCount(f, fmt) * d <= |f.elements|
    ensures Flatten(Copies(f, fmt, d)) == f.elements[..ReadCount(f, fmt) * d]
  {
    var count := ReadCount(f, fmt);
    CopiesFit(f, fmt);
    MulMonotone(d, fmt.duplicationFactor, count);
    if d > 0 {
      var lo, hi := count * (d - 1), count * d;
      CursorBound(count, d - 1, d);
      MulSucc(count, d - 1);
      CopiesTile(f, fmt, d - 1);
      CopiesInit(f, fmt, d);
      var copies := Copies(f, fmt, d);
      assert copies[..d - 1] == Copies(f, fmt, d - 1);
      assert copies[d - 1] == f.elements[lo..hi];
      PrefixSplit(f.elements, lo, hi);
    }
  }

  /** The copies read for cursors 0, ..., d-1. */
  function Copies(f: BinaryFile, fmt: FileFormat, d: nat): (copies: seq<seq<int>>)
    requires fmt.Valid() && WellFormed(f, fmt) && Aligned(f, fmt)
    requires d <= fmt.duplicationFactor
    ensures |copies| == d
  {
    seq(d, c requires 0 <= c < d => ReadSlice(f, fmt, c))
  }

  lemma CopiesInit(f: BinaryFile, fmt: FileFormat, d: nat)
    requires fmt.Valid() && WellFormed(f, fmt) && Aligned(f, fmt)
    requires 0 < d <= fmt.duplicationFactor
    ensures Copies(f, fmt, d) == Copies(f, fmt, d - 1) + [ReadSlice(f, fmt, d - 1)]
  {
  }

  /** `reshape(rows, width)`: consecutive runs of `width` elements, in order. */
  function Reshape(elems: seq<int>, rows: nat, width: nat): (r: seq<Row>)
    requires |elems| == rows * width
    ensures |r| == rows
    ensures forall k :: 0 <= k < rows ==> |r[k]| == width
    ensures Flatten(r) == elems
    decreases rows
  {
    if rows == 0 then []
    else
      var cut := (rows - 1) * width;
      var init := Reshape(elems[..cut], rows - 1, width);
      assert (init + [elems[cut..]])[..|init|] == init;
      init + [elems[cut..]]
  }

  /** The rows one epoch reads from a file for a duplication cursor. */
  function FileRows(f: BinaryFile, fmt: FileFormat, cursor: nat): (rows: seq<Row>)
    requires fmt.Valid() && WellFormed(f, fmt) && Aligned(f, fmt)
    requires cursor < fmt.duplicationFactor
    ensures |rows| == SamplesInFile(f, fmt).value
    ensures forall k :: 0 <= k < |rows| ==> |rows[k]| == fmt.sampleSize
    ensures Flatten(rows) == ReadSlice(f, fmt, cursor)
  {
    Reshape(ReadSlice(f, fmt, cursor), SamplesInFile(f, fmt).value, fmt.sampleSize)
  }

  predicate RowsOfWidth(rows: seq<Row>, width: nat)
  {
    forall r :: 0 <= r < |rows| ==> |rows[r]| == width
  }

  predicate FilesWellFormed(files: seq<BinaryFile>, fmt: FileFormat)
    requires fmt.Valid()
  {
    forall k :: 0 <= k < |files| ==> WellFormed(files[k], fmt)
  }

  predicate AllAligned(files: seq<BinaryFile>, fmt: FileFormat)
    requires fmt.Valid()
  {
    forall k :: 0 <= k < |files| ==> Aligned(files[k], fmt)
  }

  lemma RowsOfWidthAppend(a: seq<Row>, b: seq<Row>, width: nat)
    requires RowsOfWidth(a, width) && RowsOfWidth(b, width)
    ensures RowsOfWidth(a + b, width)
  {
    forall r | 0 <= r < |a + b| ensures |(a + b)[r]| == width {
      if r < |a| { assert (a + b)[r] == a[r]; } else { assert (a + b)[r] == b[r - |a|]; }
    }
  }

  lemma RowsOfWidthSlice(a: seq<Row>, lo: nat, hi: nat, width: nat)
    requires RowsOfWidth(a, width) && lo <= hi <= |a|
    ensures RowsOfWidth(a[lo..hi], width)
  {
    forall r | 0 <= r < hi - lo ensures |a[lo..hi][r]| == width {
      assert a[lo..hi][r] == a[lo + r];
    }
  }

  /** Reordering rows keeps every row's width. */
  lemma PermutedRowsOfWidth(a: seq<Row>, b: seq<Row>, width: nat)
    requires multiset(a) == multiset(b) && RowsOfWidth(b, width)
    ensures RowsOfWidth(a, width)
  {
    forall r | 0 <= r < |a| ensures |a[r]| == width {
      assert a[r] in multiset(b);
      var k :| 0 <= k < |b| && b[k] == a[r];
    }
  }

  /**
   * The rows of one epoch over every file, each file read at the same duplication
   * cursor, concatenated in file order: what one cache entry holds before shuffling.
   */
  function EpochRows(files: seq<BinaryFile>, fmt: FileFormat, cursor: nat): (rows: seq<Row>)
    requires fmt.Valid() && FilesWellFormed(files, fmt) && AllAligned(files, fmt)
    requires cursor < fmt.duplicationFactor
    ensures |rows| == SampleTotal(files, fmt)
    ensures RowsOfWidth(rows, fmt.sampleSize)
    decreases |files|
  {
    if files == [] then []
    else
      var n := |files| - 1;
      assert forall k :: 0 <= k < n ==> files[..n][k] == files[k];
      var init := EpochRows(files[..n], fmt, cursor);
      RowsOfWidthAppend(init, FileRows(files[n], fmt, cursor), fmt.sampleSize);
      init + FileRows(files[n], fmt, cursor)
  }

  // ---------------------------------------------------------------------------
  // Shuffling

  /**
   * `Generator.shuffle`: a Fisher-Yates pass from the back, swapping each position
   * with one drawn at or before it. The draws are a free choice here, so the
   * result is any permutation of the input.
   */
  method Shuffle<T>(s: seq<T>) returns (r: seq<T>)
    ensures |r| == |s|
    ensures multiset(r) == multiset(s)
  {
    r := s;
    var i := |r|;
    while i > 1
      invariant 0 <= i <= |r| == |s|
      invariant multiset(r) == multiset(s)
    {
      i := i - 1;
      var j :| 0 <= j <= i;
      r := r[i := r[j]][j := r[i]];
    }
  }
}
