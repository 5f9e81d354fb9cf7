/**
 * The BERT post-processing applied to every batch a loader yields: token ids at or
 * above the vocabulary size become the unknown token, masked-lm labels at or above
 * it become padding, and every field is converted to unsigned 32-bit integers. The
 * transform's length is the length of the loader it wraps.
 */
module Transform {
  import opened Common
  import opened Records
  import opened Loader
  import opened CachedLoader
  import opened Generated

  /** Id of the `[UNK]` token that replaces out-of-vocabulary input ids. */
  const UNKNOWN_TOKEN: int := 100
  /** Label value that marks a masked-lm position as padding. */
  const LABEL_PADDING: int := 0
  /** Field index of the input ids. */
  const INPUT_IDS: nat := 0
  /** Field index of the masked-lm labels. */
  const MASKED_LABELS: nat := 5

  const TWO_TO_32: int := 0x1_0000_0000

  newtype uint32 = x: int | 0 <= x < 0x1_0000_0000

  /** Conversion to an unsigned 32-bit integer, wrapping modulo 2^32 as a C cast does. */
  function ToUint32(v: int): (r: uint32)
    ensures 0 <= v < TWO_TO_32 ==> r as int == v
    ensures (v - r as int) % TWO_TO_32 == 0
  {
    (v % TWO_TO_32) as uint32
  }

  /** The value a clamped field holds in place of `v`. */
  function ClampValue(v: int, vocab: int, fill: int): int
  {
    if v >= vocab then fill else v
  }

  /** A block with every value at or above `vocab` replaced by `fill`. */
  function Clamp(rows: seq<Row>, vocab: int, fill: int): (out: seq<Row>)
    ensures |out| == |rows|
    ensures forall b :: 0 <= b < |rows| ==> |out[b]| == |rows[b]|
  {
    seq(|rows|, b requires 0 <= b < |rows| =>
      seq(|rows[b]|, j requires 0 <= j < |rows[b]| => ClampValue(rows[b][j], vocab, fill)))
  }

  /** Every value of a block lies below `bound`. */
  predicate AllBelow(rows: seq<Row>, bound: int)
  {
    forall b, j :: 0 <= b < |rows| && 0 <= j < |rows[b]| ==> rows[b][j] < bound
  }

  /** A block already inside the vocabulary passes through the clamp unchanged. */
  lemma ClampInVocab(rows: seq<Row>, vocab: int, fill: int)
    requires AllBelow(rows, vocab)
    ensures Clamp(rows, vocab, fill) == rows
  {
    var out := Clamp(rows, vocab, fill);
    forall b | 0 <= b < |rows| ensures out[b] == rows[b] {
      assert forall j :: 0 <= j < |rows[b]| ==> out[b][j] == rows[b][j];
    }
  }

  /** With a fill value inside the vocabulary, a clamped block lies inside it. */
  lemma ClampBounded(rows: seq<Row>, vocab: int, fill: int)
    requires fill < vocab
    ensures AllBelow(Clamp(rows, vocab, fill), vocab)
  {
  }

  /** Clamping twice is clamping once, when the fill value is inside the vocabulary. */
  lemma ClampIdempotent(rows: seq<Row>, vocab: int, fill: int)
    requires fill < vocab
    ensures Clamp(Clamp(rows, vocab, fill), vocab, fill) == Clamp(rows, vocab, fill)
  {
    ClampBounded(rows, vocab, fill);
    ClampInVocab(Clamp(rows, vocab, fill), vocab, fill);
  }

  /** A block converted value by value to unsigned 32-bit integers. */
  function CastRows(rows: seq<Row>): (out: seq<seq<uint32>>)
    ensures |out| == |rows|
    ensures forall b :: 0 <= b < |rows| ==> |out[b]| == |rows[b]|
  {
    seq(|rows|, b requires 0 <= b < |rows| =>
      seq(|rows[b]|, j requires 0 <= j < |rows[b]| => ToUint32(rows[b][j])))
  }

  /** Synthetic input ids are drawn below the vocabulary size, so the clamp leaves them as drawn. */
  lemma GeneratedIdsUnclamped(block: seq<Row>, rows: nat, width: nat, bound: nat, vocab: int, fill: int)
    requires IsRandomBlock(block, rows, width, bound) && bound <= vocab
    ensures Clamp(block, vocab, fill) == block
  {
    ClampInVocab(block, vocab, fill);
  }

  /** Non-negative values below 2^32 survive the conversion. */
  lemma CastKeepsValues(rows: seq<Row>, b: nat, j: nat)
    requires b < |rows| && j < |rows[b]| && 0 <= rows[b][j] < TWO_TO_32
    ensures CastRows(rows)[b][j] as int == rows[b][j]
  {
  }

  /** The rows of a two-dimensional array, as values. */
  function Rows(a: array2<int>): (rows: seq<Row>)
    reads a
    ensures |rows| == a.Length0
    ensures forall i :: 0 <= i < a.Length0 ==> |rows[i]| == a.Length1
  {
    seq(a.Length0, i requires 0 <= i < a.Length0 reads a =>
      seq(a.Length1, j requires 0 <= j < a.Length1 reads a => a[i, j]))
  }

  /** `a[a >= vocab] = fill`: overwrites every value at or above `vocab`, in place. */
  method ClampInPlace(a: array2<int>, vocab: int, fill: int)
    modifies a
    ensures forall i, j :: 0 <= i < a.Length0 && 0 <= j < a.Length1 ==>
              a[i, j] == ClampValue(old(a[i, j]), vocab, fill)
    ensures Rows(a) == Clamp(old(Rows(a)), vocab, fill)
  {
    for i := 0 to a.Length0
      invariant forall p, q :: 0 <= p < i && 0 <= q < a.Length1 ==> a[p, q] == ClampValue(old(a[p, q]), vocab, fill)
      invariant forall p, q :: i <= p < a.Length0 && 0 <= q < a.Length1 ==> a[p, q] == old(a[p, q])
    {
      for j := 0 to a.Length1
        invariant forall p, q :: 0 <= p < i && 0 <= q < a.Length1 ==> a[p, q] == ClampValue(old(a[p, q]), vocab, fill)
        invariant forall q :: 0 <= q < j ==> a[i, q] == ClampValue(old(a[i, q]), vocab, fill)
        invariant forall p, q :: i <= p < a.Length0 && 0 <= q < a.Length1 && (p > i || q >= j) ==> a[p, q] == old(a[p, q])
      {
        if a[i, j] >= vocab {
          a[i, j] := fill;
        }
      }
    }
    ghost var before := old(Rows(a));
    assert Rows(a) == Clamp(before, vocab, fill) by {
      forall i | 0 <= i < a.Length0 ensures Rows(a)[i] == Clamp(before, vocab, fill)[i] {
        assert forall j :: 0 <= j < a.Length1 ==> Rows(a)[i][j] == ClampValue(before[i][j], vocab, fill);
      }
    }
  }

  /** Any of the loaders a transform can wrap; `External` is one outside this model, known by its length. */
  datatype DataLoader =
    | Binary(binary: BinaryDataLoader)
    | Cached(cached: CachedDataLoader)
    | Synthetic(generated: GeneratedDataLoader)
    | External(length: nat)

  /** The objects whose fields a loader's length computation may read or write. */
  function Frame(dl: DataLoader): set<object>
  {
    match dl
    case Binary(b) => {b}
    case Cached(c) => {c, c.base}
    case Synthetic(g) => {g}
    case External(_) => {}
  }

  /** The wrapped loader is in a state its length can be asked of. */
  ghost predicate Ready(dl: DataLoader)
    reads Frame(dl)
  {
    match dl
    case Binary(b) => b.Valid() && b.MemoValid()
    case Cached(c) => c.Valid()
    case Synthetic(_) => true
    case External(_) => true
  }

  /** Batches per pass of a file-backed loader: its sample total floor-divided by the batch size. */
  function FileBatches(files: seq<BinaryFile>, fmt: FileFormat, batchSize: nat): (r: Result<nat, LoaderError>)
    requires fmt.Valid() && batchSize > 0
    ensures r.Ok? <==> TotalSamples(files, fmt).Ok?
    ensures r.Ok? ==> r.value * batchSize <= TotalSamples(files, fmt).value < (r.value + 1) * batchSize
    ensures r.Err? ==> exists i :: 0 <= i < |files| && !Aligned(files[i], fmt) && r.error == Misaligned(files[i].name)
  {
    match TotalSamples(files, fmt)
    case Ok(total) => Ok(total / batchSize)
    case Err(e) => Err(e)
  }

  /** `len(dl)` as a value: what the wrapped loader reports as its number of batches per pass. */
  ghost function PassLength(dl: DataLoader): Result<nat, LoaderError>
    reads Frame(dl)
  {
    match dl
    case Binary(b) => if b.fmt.Valid() && b.batchSize > 0 then FileBatches(b.files, b.fmt, b.batchSize) else Ok(0)
    case Cached(c) =>
      if c.base.fmt.Valid() && c.base.batchSize > 0 then FileBatches(c.base.files, c.base.fmt, c.base.batchSize) else Ok(0)
    case Synthetic(g) => Ok(g.len)
    case External(n) => Ok(n)
  }

  /**
   * `len(dl)`: batches per pass. A file-backed loader divides the sample total of its
   * files by the batch size (the streaming loader raises on a misaligned file, the
   * caching one has already checked its files); the synthetic loader has its
   * configured length.
   */
  method LoaderLength(dl: DataLoader) returns (r: Result<nat, LoaderError>)
    requires Ready(dl)
    modifies Frame(dl)
    ensures Ready(dl)
    ensures r == PassLength(dl) && r == old(PassLength(dl))
    ensures dl.Binary? ==> dl.binary.files == old(dl.binary.files)
    ensures dl.Cached? ==> dl.cached.base.files == old(dl.cached.base.files)
    ensures dl.Cached? ==> r.Ok?
  {
    match dl
    case Binary(b) =>
      r := b.Length();
    case Cached(c) =>
      var n := c.Length();
      r := Ok(n);
    case Synthetic(g) =>
      r := Ok(g.len);
    case External(n) =>
      r := Ok(n);
  }

  /** The fields `__next__` writes to in place: the input ids and the masked-lm labels. */
  function Clamped(items: seq<array2<int>>): set<array2<int>>
  {
    set k | 0 <= k < |items| && (k == INPUT_IDS || k == MASKED_LABELS) :: items[k]
  }

  class BertDataTransform {
    const dataloader: DataLoader
    const vocabLength: int
    const maskTokens: nat

    constructor (dataloader: DataLoader, vocabLength: int, maskTokens: nat)
      ensures this.dataloader == dataloader && this.vocabLength == vocabLength && this.maskTokens == maskTokens
    {
      this.dataloader := dataloader;
      this.vocabLength := vocabLength;
      this.maskTokens := maskTokens;
    }

    /** The transform has as many batches as the loader it wraps. */
    method Length() returns (r: Result<nat, LoaderError>)
      requires Ready(dataloader)
      modifies Frame(dataloader)
      ensures Ready(dataloader)
      ensures r == PassLength(dataloader)
    {
      r := LoaderLength(dataloader);
    }

    /**
     * Post-processing of the field arrays `items` the wrapped loader's iterator
     * yielded: input ids at or above the vocabulary size become `[UNK]` and labels at
     * or above it become padding, both in place; then every field is converted to
     * unsigned 32-bit integers. Fewer than six fields raise IndexError, after the
     * input ids have already been overwritten when there is at least one field.
     */
    method Next(items: seq<array2<int>>) returns (r: Result<seq<seq<seq<uint32>>>, LoaderError>)
      requires |items| > MASKED_LABELS ==> items[INPUT_IDS] != items[MASKED_LABELS]
      modifies Clamped(items)
      ensures |items| == 0 ==> r == Err(MissingField(INPUT_IDS))
      ensures 0 < |items| <= MASKED_LABELS ==> r == Err(MissingField(MASKED_LABELS))
      ensures |items| > INPUT_IDS ==>
                Rows(items[INPUT_IDS]) == Clamp(old(Rows(items[INPUT_IDS])), vocabLength, UNKNOWN_TOKEN)
      ensures |items| > MASKED_LABELS ==>
                Rows(items[MASKED_LABELS]) == Clamp(old(Rows(items[MASKED_LABELS])), vocabLength, LABEL_PADDING)
      ensures |items| > MASKED_LABELS ==> r.Ok? && |r.value| == |items|
      ensures r.Ok? ==> forall i :: 0 <= i < |items| ==> r.value[i] == CastRows(Rows(items[i]))
    {
      if |items| == 0 {
        return Err(MissingField(INPUT_IDS));
      }
      ClampInPlace(items[INPUT_IDS], vocabLength, UNKNOWN_TOKEN);
      if |items| <= MASKED_LABELS {
        return Err(MissingField(MASKED_LABELS));
      }
      ClampInPlace(items[MASKED_LABELS], vocabLength, LABEL_PADDING);
      var out: seq<seq<seq<uint32>>> := [];
      for i := 0 to |items|
        invariant |out| == i
        invariant forall k :: 0 <= k < i ==> out[k] == CastRows(Rows(items[k]))
      {
        out := out + [CastRows(Rows(items[i]))];
      }
      r := Ok(out);
    }
  }
}
