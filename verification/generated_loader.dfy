/**
 * The synthetic-data loader: instead of reading files it yields `len` batches, each a
 * list of field blocks filled with values drawn uniformly from `[0, range)`. Which
 * values are drawn is left open (a `:|` choice), so every statement below holds for
 * every draw.
 */
module Generated {
  import opened Common
  import opened Records

  /** `block` is a `rows` by `width` block whose values all lie in `[0, bound)`. */
  predicate IsRandomBlock(block: seq<Row>, rows: nat, width: nat, bound: nat)
  {
    |block| == rows &&
    forall b :: 0 <= b < rows ==> |block[b]| == width && forall j :: 0 <= j < width ==> 0 <= block[b][j] < bound
  }

  /** Number of pairs `zip(xs, ys)` yields: the shorter list's length. */
  function ZipLength(xs: seq<nat>, ys: seq<nat>): (n: nat)
    ensures n <= |xs| && n <= |ys|
    ensures n == |xs| || n == |ys|
  {
    if |xs| <= |ys| then |xs| else |ys|
  }

  /**
   * A `rows` by `width` draw from `[0, bound)` that numpy refuses: the range is empty
   * and the block is not (a zero-size draw returns an empty block whatever the range).
   */
  predicate FailingDraw(rows: nat, width: nat, bound: nat)
  {
    bound == 0 && rows > 0 && width > 0
  }

  /** Index of the first field among the first `n` whose `rows` by `widths[i]` draw fails, if any. */
  function FirstFailingDraw(rows: nat, widths: seq<nat>, ranges: seq<nat>, n: nat): (r: Option<nat>)
    requires n <= |widths| && n <= |ranges|
    ensures r.None? <==> forall i :: 0 <= i < n ==> !FailingDraw(rows, widths[i], ranges[i])
    ensures r.Some? ==> r.value < n && FailingDraw(rows, widths[r.value], ranges[r.value]) &&
                        forall i :: 0 <= i < r.value ==> !FailingDraw(rows, widths[i], ranges[i])
    decreases n
  {
    if n == 0 then None
    else
      match FirstFailingDraw(rows, widths, ranges, n - 1)
      case Some(i) => Some(i)
      case None => if FailingDraw(rows, widths[n - 1], ranges[n - 1]) then Some(n - 1) else None
  }

  /** One row of `width` values drawn from `[0, bound)`. */
  method RandomRow(width: nat, bound: nat) returns (row: Row)
    requires bound > 0 || width == 0
    ensures |row| == width && forall j :: 0 <= j < width ==> 0 <= row[j] < bound
  {
    row := [];
    while |row| < width
      invariant |row| <= width
      invariant forall j :: 0 <= j < |row| ==> 0 <= row[j] < bound
    {
      var v :| 0 <= v < bound;
      row := row + [v];
    }
  }

  /**
   * `np.random.randint(0, bound, [rows, width])`: raises when the range is empty, unless
   * the block has no values at all, in which case the empty block comes back.
   */
  method RandomBlock(rows: nat, width: nat, bound: nat, field: nat) returns (r: Result<seq<Row>, LoaderError>)
    ensures r.Err? <==> FailingDraw(rows, width, bound)
    ensures r.Err? ==> r.error == EmptyRandomRange(field)
    ensures r.Ok? ==> IsRandomBlock(r.value, rows, width, bound)
  {
    if FailingDraw(rows, width, bound) {
      return Err(EmptyRandomRange(field));
    }
    var block: seq<Row> := [];
    while |block| < rows
      invariant |block| <= rows
      invariant forall b :: 0 <= b < |block| ==> |block[b]| == width && forall j :: 0 <= j < width ==> 0 <= block[b][j] < bound
    {
      var row := RandomRow(width, bound);
      block := block + [row];
    }
    r := Ok(block);
  }

  class GeneratedDataLoader {
    /** Field widths of a record. */
    const sampleSizes: seq<nat>
    const batchSize: nat
    /** Exclusive upper bound of the values of each field. */
    const generatedRanges: seq<nat>
    /** Number of batches one pass yields. */
    const len: nat
    /** Batches yielded so far in this pass. */
    var dataIndex: nat

    /** Batches the current pass has still to yield. */
    function Remaining(): nat
      reads this`dataIndex
    {
      if dataIndex <= len then len - dataIndex else 0
    }

    constructor (sampleSizes: seq<nat>, batchSize: nat, generatedRanges: seq<nat>, length: nat)
      ensures this.sampleSizes == sampleSizes && this.batchSize == batchSize
      ensures this.generatedRanges == generatedRanges && len == length && dataIndex == 0
    {
      this.sampleSizes := sampleSizes;
      this.batchSize := batchSize;
      this.generatedRanges := generatedRanges;
      len := length;
      dataIndex := 0;
    }

    /** Construction raises when no ranges are given; otherwise a pass yields `length` batches. */
    static method New(sampleSizes: seq<nat>, batchSize: nat, length: nat, generatedRanges: Option<seq<nat>>)
      returns (r: Result<GeneratedDataLoader, LoaderError>)
      ensures r.Err? <==> generatedRanges.None?
      ensures r.Err? ==> r.error == MissingGeneratedRanges
      ensures r.Ok? ==> fresh(r.value) && r.value.generatedRanges == generatedRanges.value
      ensures r.Ok? ==> r.value.sampleSizes == sampleSizes && r.value.batchSize == batchSize
      ensures r.Ok? ==> r.value.len == length && r.value.Remaining() == length
    {
      if generatedRanges.None? {
        return Err(MissingGeneratedRanges);
      }
      var g := new GeneratedDataLoader(sampleSizes, batchSize, generatedRanges.value, length);
      r := Ok(g);
    }

    /** A new pass: all `len` batches are to come again. */
    method Start()
      modifies this`dataIndex
      ensures Remaining() == len
    {
      dataIndex := 0;
    }

    /**
     * The next batch: one random block per (width, range) pair, as many as the
     * shorter of the two lists. A pass ends with StopIteration once `len` batches
     * have been yielded; an empty range of a non-empty block raises and consumes no batch.
     */
    method Next() returns (r: Result<seq<seq<Row>>, LoaderError>)
      modifies this`dataIndex
      ensures old(Remaining()) == 0 ==> r == Err(StopIteration)
      ensures old(Remaining()) > 0 ==>
                var n := ZipLength(sampleSizes, generatedRanges);
                var first := FirstFailingDraw(batchSize, sampleSizes, generatedRanges, n);
                (r.Ok? <==> first.None?) &&
                (r.Err? ==> r.error == EmptyRandomRange(first.value))
      ensures r.Ok? ==> Remaining() == old(Remaining()) - 1
      ensures r.Err? ==> dataIndex == old(dataIndex)
      ensures r.Ok? ==> |r.value| == ZipLength(sampleSizes, generatedRanges)
      ensures r.Ok? ==> forall i :: 0 <= i < |r.value| ==>
                IsRandomBlock(r.value[i], batchSize, sampleSizes[i], generatedRanges[i])
    {
      if dataIndex >= len {
        return Err(StopIteration);
      }
      var n := ZipLength(sampleSizes, generatedRanges);
      var items: seq<seq<Row>> := [];
      for i := 0 to n
        invariant |items| == i && dataIndex == old(dataIndex)
        invariant forall k :: 0 <= k < i ==> !FailingDraw(batchSize, sampleSizes[k], generatedRanges[k])
        invariant forall k :: 0 <= k < i ==> IsRandomBlock(items[k], batchSize, sampleSizes[k], generatedRanges[k])
      {
        var block := RandomBlock(batchSize, sampleSizes[i], generatedRanges[i], i);
        if block.Err? {
          return Err(block.error);
        }
        items := items + [block.value];
      }
      dataIndex := dataIndex + 1;
      r := Ok(items);
    }
  }
}
