/**
 * Building the pretraining dataset from the run configuration: which loader serves
 * the data (synthetic, TFRecord, caching or streaming), with which record layout,
 * batch size and value ranges, and the checks that reject a configuration before
 * training starts.
 */
module Assembler {
  import opened Common
  import opened Layout
  import opened Records
  import opened Loader
  import opened CachedLoader
  import opened Generated
  import opened Transform

  /** Element size of the binary files, which hold 32-bit integers. */
  const INT32_BYTES: nat := 4

  /** The configuration fields dataset construction reads. */
  datatype Args = Args(
    generatedData: bool,
    syntheticData: bool,
    microBatchSize: nat,
    batchesPerStep: nat,
    replicationFactor: nat,
    gradientAccumulationFactor: nat,
    inputFiles: seq<string>,
    usePackedSequenceFormat: bool,
    sequenceLength: nat,
    maskTokens: nat,
    maxSequencesPerPack: nat,
    vocabLength: nat,
    duplicationFactor: nat,
    continueTrainingFromEpoch: int,
    shuffle: bool,
    seed: int,
    epochsToCache: int,
    usePopdist: bool,
    popdistSize: nat)

  /** The exceptions dataset construction raises. */
  datatype DatasetError =
    | NoInputFiles                   // ValueError: no input files and no generated data
    | PackedTfRecord                 // RuntimeError: TFRecord input in the packed format
    | InsufficientData               // ValueError: the loader has no batch
    | LoaderFailed(cause: LoaderError)

  /** Which loader a configuration selects. */
  datatype LoaderKind = GeneratedKind | TfRecordKind | CachedKind | BinaryKind

  predicate IsGenerated(args: Args)
  {
    args.generatedData || args.syntheticData
  }

  /** Samples consumed by one device step: the product of the four batching factors. */
  function SamplesPerStep(args: Args): (n: nat)
    ensures n > 0 <==> args.microBatchSize > 0 && args.batchesPerStep > 0 &&
                       args.replicationFactor > 0 && args.gradientAccumulationFactor > 0
  {
    ProductPositive(args.microBatchSize, args.batchesPerStep, args.replicationFactor, args.gradientAccumulationFactor);
    args.microBatchSize * args.batchesPerStep * args.replicationFactor * args.gradientAccumulationFactor
  }

  lemma ProductPositive(a: nat, b: nat, c: nat, d: nat)
    ensures a * b * c * d > 0 <==> a > 0 && b > 0 && c > 0 && d > 0
  {
    if a > 0 && b > 0 && c > 0 && d > 0 {
      assert a * b > 0;
      assert a * b * c > 0;
    }
  }

  /** Field widths of a record in the configured format. */
  function SampleSizes(args: Args): (widths: seq<nat>)
    ensures |widths| == if args.usePackedSequenceFormat then 10 else 7
  {
    if args.usePackedSequenceFormat then PackedDataFileFormat(args.sequenceLength, args.maskTokens, args.maxSequencesPerPack)
    else DataFileFormat(args.sequenceLength, args.maskTokens)
  }

  /** Value bounds synthetic data draws from, index for index with SampleSizes. */
  function SyntheticRanges(args: Args): (ranges: seq<nat>)
    ensures |ranges| == |SampleSizes(args)|
    ensures ranges[INPUT_IDS] == args.vocabLength && ranges[MASKED_LABELS] == args.vocabLength
  {
    if args.usePackedSequenceFormat then
      PackedDataRanges(args.sequenceLength, args.maskTokens, args.vocabLength, args.maxSequencesPerPack)
    else DataRanges(args.sequenceLength, args.maskTokens, args.vocabLength)
  }

  /** ASCII lower case of one character. */
  function LowerChar(c: char): (l: char)
    ensures 'A' <= c <= 'Z' ==> 'a' <= l <= 'z' && l as int - c as int == 'a' as int - 'A' as int
    ensures !('A' <= c <= 'Z') ==> l == c
  {
    if 'A' <= c <= 'Z' then (c as int - 'A' as int + 'a' as int) as char else c
  }

  function Lower(s: string): (l: string)
    ensures |l| == |s| && forall i :: 0 <= i < |s| ==> l[i] == LowerChar(s[i])
  {
    seq(|s|, i requires 0 <= i < |s| => LowerChar(s[i]))
  }

  predicate EndsWith(s: string, suffix: string)
  {
    |suffix| <= |s| && s[|s| - |suffix|..] == suffix
  }

  /** The input is TFRecord when the first file name ends in "tfrecord", in any case. */
  predicate IsTfRecordInput(args: Args)
  {
    |args.inputFiles| > 0 && EndsWith(Lower(args.inputFiles[0]), "tfrecord")
  }

  /** The loader a configuration selects: generated data first, then TFRecord input, then caching. */
  function Select(args: Args): (kind: LoaderKind)
    ensures kind == GeneratedKind <==> IsGenerated(args)
    ensures kind == TfRecordKind <==> !IsGenerated(args) && IsTfRecordInput(args)
    ensures kind == CachedKind <==> !IsGenerated(args) && !IsTfRecordInput(args) && args.epochsToCache > 0
    ensures kind == BinaryKind <==> !IsGenerated(args) && !IsTfRecordInput(args) && args.epochsToCache <= 0
  {
    if IsGenerated(args) then GeneratedKind
    else if IsTfRecordInput(args) then TfRecordKind
    else if args.epochsToCache > 0 then CachedKind
    else BinaryKind
  }

  /** Record layout of the binary files. */
  function Format(args: Args): FileFormat
  {
    FileFormat(Sum(SampleSizes(args)), INT32_BYTES, args.duplicationFactor)
  }

  /**
   * What the selected loader's constructor and length computation divide by is
   * non-zero: the duplication factor for every loader built on the streaming one,
   * and the batch size and record size for those that read files.
   */
  predicate Divisible(args: Args)
  {
    (Select(args) != TfRecordKind ==> args.duplicationFactor > 0) &&
    (Select(args) == CachedKind || Select(args) == BinaryKind ==> SamplesPerStep(args) > 0 && Sum(SampleSizes(args)) > 0)
  }

  /** The synthetic loader of a configuration: `length` batches of the configured layout and ranges. */
  method NewGeneratedLoader(args: Args, length: nat) returns (dl: DataLoader)
    ensures dl.Synthetic? && fresh(dl.generated) && dl.generated.len == length
    ensures dl.generated.sampleSizes == SampleSizes(args) && dl.generated.generatedRanges == SyntheticRanges(args)
    ensures dl.generated.batchSize == SamplesPerStep(args)
  {
    var g := GeneratedDataLoader.New(SampleSizes(args), SamplesPerStep(args), length, Some(SyntheticRanges(args)));
    assert g.Ok?;
    dl := Synthetic(g.value);
  }

  /** The caching loader of a configuration, which reads its first epochs on construction. */
  method NewCachedLoader(args: Args, files: seq<BinaryFile>) returns (r: Result<DataLoader, DatasetError>)
    requires Divisible(args) && Select(args) == CachedKind && FilesWellFormed(files, Format(args))
    ensures files == [] ==> r == Err(LoaderFailed(NothingToConcatenate))
    ensures !AllAligned(files, Format(args)) ==> r.Err? && r.error.LoaderFailed? && r.error.cause.Misaligned?
    ensures r.Ok? <==> files != [] && AllAligned(files, Format(args))
    ensures r.Ok? ==> r.value.Cached? && fresh(Frame(r.value)) && Ready(r.value)
    ensures r.Ok? ==> r.value.cached.base.files == files && r.value.cached.epochsToCache == args.epochsToCache
    ensures r.Ok? ==> PassLength(r.value) == Ok(TotalSamples(files, Format(args)).value / SamplesPerStep(args))
  {
    var c := CachedDataLoader.New(files, SampleSizes(args), SamplesPerStep(args), INT32_BYTES, args.shuffle,
                                  args.duplicationFactor, args.continueTrainingFromEpoch, args.epochsToCache);
    if c.Err? {
      if files != [] {
        assert c.error == TotalSamples(files, Format(args)).error;
      }
      return Err(LoaderFailed(c.error));
    }
    var n := c.value.Length();
    r := Ok(Cached(c.value));
  }

  /** The streaming loader of a configuration; nothing is read until its length or first batch is asked for. */
  method NewBinaryLoader(args: Args, files: seq<BinaryFile>) returns (dl: DataLoader)
    requires Divisible(args) && Select(args) == BinaryKind && FilesWellFormed(files, Format(args))
    ensures dl.Binary? && fresh(dl.binary) && Ready(dl)
    ensures dl.binary.files == files && dl.binary.fmt == Format(args)
    ensures dl.binary.shuffle == args.shuffle && dl.binary.batchSize == SamplesPerStep(args)
    ensures PassLength(dl) == FileBatches(files, Format(args), SamplesPerStep(args))
  {
    var b := new BinaryDataLoader(files, SampleSizes(args), SamplesPerStep(args), INT32_BYTES, args.shuffle,
                                  args.duplicationFactor, args.continueTrainingFromEpoch);
    dl := Binary(b);
  }

  /** The loader a run reads from: a distributed run reads through the per-replica sampler. */
  function Served(args: Args, dl: DataLoader, distributedLength: nat): DataLoader
  {
    if args.usePopdist then External(distributedLength) else dl
  }

  /** The last steps: wrap for a distributed run, reject a loader without a batch, add the transform. */
  method Serve(args: Args, dl: DataLoader, distributedLength: nat) returns (r: Result<BertDataTransform, DatasetError>)
    requires Ready(dl)
    modifies Frame(dl)
    ensures r.Ok? <==> old(PassLength(Served(args, dl, distributedLength))).Ok? &&
                       old(PassLength(Served(args, dl, distributedLength))).value > 0
    ensures old(PassLength(Served(args, dl, distributedLength))).Err? ==>
              r == Err(LoaderFailed(old(PassLength(Served(args, dl, distributedLength))).error))
    ensures old(PassLength(Served(args, dl, distributedLength))) == Ok(0) ==> r == Err(InsufficientData)
    ensures r.Ok? ==> fresh(r.value) && r.value.dataloader == Served(args, dl, distributedLength)
    ensures r.Ok? ==> Ready(r.value.dataloader) && PassLength(r.value.dataloader).Ok? && PassLength(r.value.dataloader).value > 0
    ensures r.Ok? ==> r.value.vocabLength == args.vocabLength && r.value.maskTokens == args.maskTokens
    ensures dl.Binary? ==> dl.binary.files == old(dl.binary.files)
    ensures dl.Cached? ==> dl.cached.base.files == old(dl.cached.base.files)
  {
    var served := dl;
    if args.usePopdist {
      served := External(distributedLength);
    }
    var n := LoaderLength(served);
    if n.Err? {
      return Err(LoaderFailed(n.error));
    }
    if n.value == 0 {
      return Err(InsufficientData);
    }
    var ds := new BertDataTransform(served, args.vocabLength, args.maskTokens);
    r := Ok(ds);
  }

  /**
   * The dataset for a configuration: the selected loader wrapped in the BERT
   * transform. `files` is what the input patterns expand to; `tfRecordLength` is the
   * length of the TFRecord loader and `distributedLength` that of the per-replica
   * sampler a distributed run wraps the loader in, both outside this model.
   */
  method GetBertDataset(args: Args, files: seq<BinaryFile>, tfRecordLength: nat, distributedLength: nat)
    returns (r: Result<BertDataTransform, DatasetError>)
    requires Divisible(args)
    requires Select(args) == CachedKind || Select(args) == BinaryKind ==> FilesWellFormed(files, Format(args))
    ensures !IsGenerated(args) && args.inputFiles == [] ==> r == Err(NoInputFiles)
    ensures Select(args) == TfRecordKind && args.usePackedSequenceFormat ==> r == Err(PackedTfRecord)
    ensures Select(args) == CachedKind && args.inputFiles != [] && files == [] ==>
              r == Err(LoaderFailed(NothingToConcatenate))
    ensures Select(args) == CachedKind && args.inputFiles != [] && !AllAligned(files, Format(args)) ==>
              r.Err? && r.error.LoaderFailed? && r.error.cause.Misaligned?
    ensures Select(args) == CachedKind && args.inputFiles != [] && files != [] && AllAligned(files, Format(args)) &&
            !args.usePopdist ==>
              (r.Ok? <==> TotalSamples(files, Format(args)).value / SamplesPerStep(args) > 0) &&
              (r.Err? ==> r.error == InsufficientData)
    ensures Select(args) == BinaryKind && args.inputFiles != [] && !args.usePopdist && !AllAligned(files, Format(args)) ==>
              r.Err? && r.error.LoaderFailed? && r.error.cause.Misaligned?
    ensures Select(args) == BinaryKind && args.inputFiles != [] && !args.usePopdist && AllAligned(files, Format(args)) ==>
              (r.Ok? <==> TotalSamples(files, Format(args)).value / SamplesPerStep(args) > 0) &&
              (r.Err? ==> r.error == InsufficientData)
    ensures (Select(args) == CachedKind || Select(args) == BinaryKind) && args.inputFiles != [] && args.usePopdist &&
            files != [] && AllAligned(files, Format(args)) ==>
              (r.Ok? <==> distributedLength > 0) && (r.Err? ==> r.error == InsufficientData)
    ensures r.Ok? ==> fresh(r.value) && Ready(r.value.dataloader)
    ensures r.Ok? ==> r.value.vocabLength == args.vocabLength && r.value.maskTokens == args.maskTokens
    ensures r.Ok? ==> PassLength(r.value.dataloader).Ok? && PassLength(r.value.dataloader).value > 0
    ensures r.Ok? && args.usePopdist ==> r.value.dataloader == External(distributedLength)
    ensures Select(args) == GeneratedKind ==> (r.Ok? <==> !args.usePopdist || distributedLength > 0)
    ensures r.Ok? && Select(args) == GeneratedKind && !args.usePopdist ==>
              r.value.dataloader.Synthetic? && r.value.dataloader.generated.len == 1 &&
              r.value.dataloader.generated.sampleSizes == SampleSizes(args) &&
              r.value.dataloader.generated.generatedRanges == SyntheticRanges(args) &&
              r.value.dataloader.generated.batchSize == SamplesPerStep(args)
    ensures Select(args) == TfRecordKind && !args.usePackedSequenceFormat ==>
              (r.Ok? <==> (if args.usePopdist then distributedLength else tfRecordLength) > 0)
    ensures r.Ok? && Select(args) == TfRecordKind && !args.usePopdist ==> r.value.dataloader == External(tfRecordLength)
    ensures r.Ok? && Select(args) == CachedKind && !args.usePopdist ==>
              r.value.dataloader.Cached? && r.value.dataloader.cached.base.files == files &&
              r.value.dataloader.cached.epochsToCache == args.epochsToCache
    ensures r.Ok? && Select(args) == BinaryKind && !args.usePopdist ==>
              r.value.dataloader.Binary? && r.value.dataloader.binary.files == files &&
              r.value.dataloader.binary.shuffle == args.shuffle &&
              r.value.dataloader.binary.batchSize == SamplesPerStep(args)
  {
    if !IsGenerated(args) && |args.inputFiles| == 0 {
      return Err(NoInputFiles);
    }
    var dl: DataLoader;
    match Select(args) {
      case GeneratedKind =>
        dl := NewGeneratedLoader(args, if args.usePopdist then args.popdistSize else 1);
      case TfRecordKind =>
        if args.usePackedSequenceFormat {
          return Err(PackedTfRecord);
        }
        dl := External(tfRecordLength);
      case CachedKind =>
        var c := NewCachedLoader(args, files);
        if c.Err? {
          return Err(c.error);
        }
        dl := c.value;
      case BinaryKind =>
        dl := NewBinaryLoader(args, files);
    }
    r := Serve(args, dl, distributedLength);
  }
}
