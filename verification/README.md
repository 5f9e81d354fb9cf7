# BERT input pipelines: pretraining loaders and SQuAD features

This project models two input pipelines of the BERT applications in Dafny and proves
properties of them.

**Pretraining sample loaders** (`pretraining_dataset.py`). Pretraining data lives in
binary files of fixed-width records; each file holds `duplication_factor` copies of
its samples.

- `BinaryDataLoader` walks the files in turn. It reads one copy of each file per
  epoch, chosen by a per-position duplication cursor, and optionally shuffles the
  file order and each file's rows. It serves batches of exactly `batch_size` records,
  crossing file boundaries where needed, and splits every batch into its fields.
- `CachedDataLoader` reads whole epochs into memory ahead of time.
- `GeneratedDataLoader` produces random batches within per-field ranges.
- `BertDataTransform` replaces out-of-vocabulary input ids by `[UNK]` (100) and
  out-of-vocabulary labels by padding (0), then converts every field to `uint32`.
- `get_bert_dataset` chooses the loader from the run configuration and rejects
  configurations that cannot train.

**SQuAD example-to-feature conversion** (`squad.py`).

- The paragraph text is split into words on whitespace, with a map from each
  character to its word.
- Each answer's character offset becomes a word span.
- The words are expanded to WordPiece sub-tokens, and the answer span is carried over
  and refined to the tightest sub-token match.
- The sub-tokens are covered by a sliding window of spans.
- Each span becomes one feature `[CLS] question [SEP] window [SEP]`, zero-padded to
  the sequence length. A feature records the word of each position and whether this
  span is the one giving that position its maximum context.
- Dummy features bring the feature count up to a multiple of `padding_to`.

Modules:

| file | module | models |
|---|---|---|
| `common.dfy` | `Common` | `Option`, `Result` (an exception as a value), sums and concatenation |
| `layout.dfy` | `Layout` | record layouts and value ranges |
| `records.dfy` | `Records` | files, alignment, sample counts, duplication copies, row and field splitting, shuffling |
| `binary_loader.dfy` | `Loader` | class `BinaryDataLoader` |
| `epoch_cache.dfy` | `EpochCache` | what the epoch cache holds and how the cursors move across epochs |
| `cached_loader.dfy` | `CachedLoader` | class `CachedDataLoader` |
| `generated_loader.dfy` | `Generated` | class `GeneratedDataLoader` |
| `transform.dfy` | `Transform` | class `BertDataTransform`, `len()` of any loader |
| `assembler.dfy` | `Assembler` | `get_bert_dataset` |
| `squad_text.dfy` | `SquadText` | whitespace splitting and answer mapping of `read_squad_examples` |
| `squad_tokens.dfy` | `TokenMaps` | query truncation, word/sub-token maps, answer span refinement |
| `squad_spans.dfy` | `DocSpans` | sliding-window spans, maximum-context selection |
| `squad_features.dfy` | `Features` | assembly of one feature per window |
| `squad_convert.dfy` | `Conversion` | `convert_examples_to_features` across examples, with padding |

Modelling choices:

- **Files.** A file is a name, a byte size and its decoded 32-bit elements.
- **Exceptions.** Each raised exception is an error value: `RuntimeError`,
  `StopIteration`, `IndexError`, `ValueError` and `TypeError` each have a constructor
  in the error datatypes.
- **Shuffles.** A shuffle is an arbitrary permutation.
- **Random data.** Random draws are arbitrary values within their range.
- **Tokenizer.** The WordPiece tokenizer and the vocabulary lookup are function
  parameters.
- **Maximum-context score.** `min(left, right) + 0.01 * length` becomes the integer
  `100 * min(left, right) + length`. `DocSpans.ScoreOrder` proves that both rank
  spans identically in exact arithmetic.

## Model

| member | source | states |
|---|---|---|
| Layout.DataFileFormat | applications/popart/bert/bert_data/pretraining_dataset.py:29-36 | seven widths: three of `sequence_length`, then 1, 1, `mask_tokens`, 1; their sum is `3*sequence_length + mask_tokens + 3` |
| Layout.UnpackedExample | applications/popart/bert/bert_data/pretraining_dataset.py:29-36 | (20, 2) gives [20,20,20,1,1,2,1], summing to 65 |
| Layout.DataRanges | applications/popart/bert/bert_data/pretraining_dataset.py:39-46 | one bound per field of the unpacked layout: vocabulary size for ids and labels, `sequence_length`, 2, `mask_tokens+1`, `sequence_length+1`, 3 |
| Layout.PackedDataFileFormat | applications/popart/bert/bert_data/pretraining_dataset.py:65-75 | ten widths: four of `sequence_length`, three of `mask_tokens + max_sequences_per_pack`, three of `max_sequences_per_pack`, with their sum |
| Layout.PackedDataRanges | applications/popart/bert/bert_data/pretraining_dataset.py:78-88 | one bound per field of the packed layout: vocabulary size for fields 0 and 5, `max_sequences_per_pack` for 1 and 6, 2 for 2, `sequence_length` for 3, 4 and 7, 1 for 8 and 9 |
| Records.SplitRow | applications/popart/bert/bert_data/pretraining_dataset.py:155-161 | a row cut into fields of the given widths, in order; field i has width i and the fields concatenate back to the row |
| Records.SplitBatch | applications/popart/bert/bert_data/pretraining_dataset.py:155-161 | one block per width; block i holds, for every row of the batch, that row's columns `total .. total+size` |
| Records.SplitBatchRoundTrip | applications/popart/bert/bert_data/pretraining_dataset.py:155-161 | taking row b from every block gives that row's fields, which concatenate back to row b |
| Records.SamplesInFile | applications/popart/bert/bert_data/pretraining_dataset.py:131-137 | raises exactly when the byte size is not a multiple of `sample_size * itemsize`; otherwise the floor of (bytes / bytes per sample) / `duplication_factor` |
| Records.SamplesInExactFile | applications/popart/bert/bert_data/pretraining_dataset.py:131-137 | a file of exactly k duplicated samples holds k samples |
| Records.TotalSamples | applications/popart/bert/bert_data/pretraining_dataset.py:139-141 | the sum of the per-file counts, or the error of the first misaligned file |
| Records.TotalSamplesPermutation | applications/popart/bert/bert_data/pretraining_dataset.py:139-149 | reordering the files (the epoch shuffle) changes neither whether the total raises nor its value |
| Records.ReadSlice | applications/popart/bert/bert_data/pretraining_dataset.py:191-194 | `count = samples * sample_size` elements read at element offset `count * cursor` |
| Records.CopiesTile | applications/popart/bert/bert_data/pretraining_dataset.py:186-194 | the copies at cursors 0 .. d-1 lie back to back and together are the file's first `count * d` elements |
| Records.Reshape | applications/popart/bert/bert_data/pretraining_dataset.py:195-196 | elements cut into `rows` rows of `width`, which concatenate back to the elements |
| Records.FileRows | applications/popart/bert/bert_data/pretraining_dataset.py:191-196 | one copy of a file as `samples_in_file` rows of `sample_size`, concatenating to the slice read |
| Records.EpochRows | applications/popart/bert/bert_data/pretraining_dataset.py:251-255 | the rows of every file at one copy, concatenated: as many as the total sample count, each of `sample_size` |
| Records.Shuffle | applications/popart/bert/bert_data/pretraining_dataset.py:148-149 | the result is a permutation of the input |
| Loader.NextCopy | applications/popart/bert/bert_data/pretraining_dataset.py:198-199 | a cursor moves to `(c + 1) % duplication_factor` and stays below `duplication_factor` |
| Loader.Advance | applications/popart/bert/bert_data/pretraining_dataset.py:198-199 | moving the cursors of positions lo .. hi-1 one copy on keeps every cursor below `duplication_factor` |
| Loader.PermutedFiles | applications/popart/bert/bert_data/pretraining_dataset.py:139-149 | shuffled files are still well formed and have the same total |
| Loader.BinaryDataLoader.constructor | applications/popart/bert/bert_data/pretraining_dataset.py:106-129 | file and row cursors at 0, no buffer, no memoised length, and every duplication cursor `start_data_at_epoch % duplication_factor` |
| Loader.BinaryDataLoader.Length | applications/popart/bert/bert_data/pretraining_dataset.py:139-143 | total samples floor-divided by `batch_size`, memoised; a misaligned file raises and nothing else in the loader changes |
| Loader.BinaryDataLoader.LoadFile | applications/popart/bert/bert_data/pretraining_dataset.py:186-204 | the current file's rows at its cursor; that cursor alone moves one copy on; `file_index` goes up by one and `data_index` becomes 0; a misaligned file raises with nothing changed |
| Loader.BinaryDataLoader.LoadData | applications/popart/bert/bert_data/pretraining_dataset.py:178-184 | StopIteration past the last file; otherwise the loaded file's rows, reordered when shuffling |
| Loader.BinaryDataLoader.GetData | applications/popart/bert/bert_data/pretraining_dataset.py:163-176 | exactly n rows: the unread rows and then those of the next files loaded, in order; the files loaded are the next ones at their cursors; StopIteration only when the files run out with fewer than n rows; on an error the unread rows are the last file loaded, or the old ones when nothing was loaded |
| Loader.BinaryDataLoader.GetDataAcrossFiles | applications/popart/bert/bert_data/pretraining_dataset.py:167-172 | the short-buffer branch: the unread rows followed by the rows of the recursive call, with the same guarantee as `GetData`, error state included |
| Loader.StopIterationRepeats | applications/popart/bert/bert_data/pretraining_dataset.py:163-176 | after StopIteration the next request for the same number of rows loads nothing and raises StopIteration again, leaving the unread rows as they were |
| Loader.BinaryDataLoader.Start | applications/popart/bert/bert_data/pretraining_dataset.py:145-151 | cursors reset; the files permuted (unchanged without shuffling); the first file loaded, or StopIteration when there are none, or its misalignment error |
| Loader.BinaryDataLoader.Next | applications/popart/bert/bert_data/pretraining_dataset.py:153-161 | the next `batch_size` rows as by `GetData`, split into one block per field width; an error leaves the state `GetData` leaves |
| EpochCache.CopyAfterMod | applications/popart/bert/bert_data/pretraining_dataset.py:198-199 | after e epochs a cursor starting at c reads copy `(c + e) % duplication_factor` |
| EpochCache.CopyAfterAdd | applications/popart/bert/bert_data/pretraining_dataset.py:198-199 | a epochs then b epochs move a cursor as a + b epochs do |
| EpochCache.CacheEntryLength | applications/popart/bert/bert_data/pretraining_dataset.py:251-258 | every cached epoch holds the total sample count of rows, each of `sample_size` |
| EpochCache.ReplayedCacheIsRefill | applications/popart/bert/bert_data/pretraining_dataset.py:238-245 | without shuffling and with one copy per file, every cached epoch is the same unshuffled concatenation, so replaying the cache equals refilling it |
| CachedLoader.CachedDataLoader.New | applications/popart/bert/bert_data/pretraining_dataset.py:215-228 | raises when `epochs_to_cache < 1`, when there are no files, or at the first misaligned file; otherwise caches `epochs_to_cache` epochs starting at copy `start_data_at_epoch % duplication_factor`, with length total samples floor-divided by `batch_size` |
| CachedLoader.CachedDataLoader.ReadEpoch | applications/popart/bert/bert_data/pretraining_dataset.py:252-257 | one epoch: every file's rows at the current copy concatenated and shuffled if configured; every cursor moves one copy on |
| CachedLoader.CachedDataLoader.FillCache | applications/popart/bert/bert_data/pretraining_dataset.py:247-259 | `epochs` consecutive epochs, epoch e read at copy `first + e`; cursors end `epochs` copies on |
| CachedLoader.CachedDataLoader.LoadCache | applications/popart/bert/bert_data/pretraining_dataset.py:247-259 | the cache refilled from the next copies, `cache_index` back to 0 |
| CachedLoader.CachedDataLoader.LoadData | applications/popart/bert/bert_data/pretraining_dataset.py:238-245 | serves the next cached epoch; an exhausted cache is refilled when shuffling or when `duplication_factor > 1`, and replayed from the start otherwise |
| CachedLoader.CachedDataLoader.ServeEntry | applications/popart/bert/bert_data/pretraining_dataset.py:244-245 | the buffer becomes the current cache entry and `cache_index` moves on |
| CachedLoader.CachedDataLoader.GetData | applications/popart/bert/bert_data/pretraining_dataset.py:230-236 | the next n buffered rows, or StopIteration without crossing into the next epoch |
| CachedLoader.CachedDataLoader.Start | applications/popart/bert/bert_data/pretraining_dataset.py:145-151 | cursors reset, files permuted, and the next cached epoch served; an exhausted cache is refilled from the current file order with the next file copies when shuffling or duplicating, and otherwise replayed from its first entry |
| CachedLoader.CachedDataLoader.Next | applications/popart/bert/bert_data/pretraining_dataset.py:153-161 | `batch_size` buffered rows split into field blocks, or StopIteration with nothing consumed |
| CachedLoader.CachedDataLoader.Length | applications/popart/bert/bert_data/pretraining_dataset.py:228 | rows of the first cached epoch floor-divided by `batch_size`, equal to total samples floor-divided by `batch_size` |
| Generated.ZipLength | applications/popart/bert/bert_data/pretraining_dataset.py:287 | `zip` stops at the shorter list |
| Generated.FirstFailingDraw | applications/popart/bert/bert_data/pretraining_dataset.py:287-288 | the first field whose draw `randint(0, 0, [batch_size, size])` raises (an empty range and a non-empty block), or none |
| Generated.RandomRow | applications/popart/bert/bert_data/pretraining_dataset.py:288 | a row of `width` values in `[0, bound)` |
| Generated.RandomBlock | applications/popart/bert/bert_data/pretraining_dataset.py:288 | `batch_size` rows of `size` values in `[0, max_value)`; raises exactly on an empty range with a non-empty block |
| Generated.GeneratedDataLoader.New | applications/popart/bert/bert_data/pretraining_dataset.py:267-277 | raises exactly when `generated_ranges` is missing; otherwise `length` batches remain |
| Generated.GeneratedDataLoader.Start | applications/popart/bert/bert_data/pretraining_dataset.py:279-281 | `len` batches remain |
| Generated.GeneratedDataLoader.Next | applications/popart/bert/bert_data/pretraining_dataset.py:283-290 | StopIteration once `len` batches were served; otherwise raises exactly on the first field whose draw fails, and else yields one block per zipped field, each `batch_size` rows of values below its range, and one batch fewer remains |
| Transform.ToUint32 | applications/popart/bert/bert_data/pretraining_dataset.py:324-325 | in-range values are kept; every value is congruent to its image modulo 2^32 |
| Transform.Clamp | applications/popart/bert/bert_data/pretraining_dataset.py:316-321 | the array keeps its shape |
| Transform.ClampInVocab | applications/popart/bert/bert_data/pretraining_dataset.py:316-321 | values already below the vocabulary size are unchanged |
| Transform.ClampBounded | applications/popart/bert/bert_data/pretraining_dataset.py:316-321 | with a replacement inside the vocabulary, every value ends up below the vocabulary size |
| Transform.ClampIdempotent | applications/popart/bert/bert_data/pretraining_dataset.py:316-321 | clamping twice equals clamping once |
| Transform.GeneratedIdsUnclamped | applications/popart/bert/bert_data/pretraining_dataset.py:288 | generated values drawn below the vocabulary size are left alone by the clamp |
| Transform.CastRows | applications/popart/bert/bert_data/pretraining_dataset.py:324-325 | the cast keeps the array's shape |
| Transform.CastKeepsValues | applications/popart/bert/bert_data/pretraining_dataset.py:324-325 | values in `[0, 2^32)` survive the cast |
| Transform.ClampInPlace | applications/popart/bert/bert_data/pretraining_dataset.py:316-321 | every entry at or above the vocabulary size is overwritten by the fill value in place, and every other entry is kept |
| Transform.FileBatches | applications/popart/bert/bert_data/pretraining_dataset.py:139-143 | the largest number of whole batches in the files' samples, or the misaligned file's error |
| Transform.LoaderLength | applications/popart/bert/bert_data/pretraining_dataset.py:139-143 | `len()` of any loader: file-backed loaders give whole batches per pass, the synthetic one its length; the files are untouched |
| Transform.BertDataTransform.constructor | applications/popart/bert/bert_data/pretraining_dataset.py:297-300 | keeps the loader, the vocabulary size and the mask token count |
| Transform.BertDataTransform.Length | applications/popart/bert/bert_data/pretraining_dataset.py:302-303 | the wrapped loader's length |
| Transform.BertDataTransform.Next | applications/popart/bert/bert_data/pretraining_dataset.py:309-326 | input ids at or above the vocabulary size become 100 and labels become 0, in place; other entries unchanged; every field cast to `uint32`; fewer than six fields raise |
| Assembler.SamplesPerStep | applications/popart/bert/bert_data/pretraining_dataset.py:331 | the product of the four batching factors, positive exactly when all are |
| Assembler.SampleSizes | applications/popart/bert/bert_data/pretraining_dataset.py:337-342 | the packed layout (10 fields) or the unpacked one (7) |
| Assembler.SyntheticRanges | applications/popart/bert/bert_data/pretraining_dataset.py:337-342 | one range per field; the id and label fields are bounded by the vocabulary size |
| Assembler.LowerChar | applications/popart/bert/bert_data/pretraining_dataset.py:353 | an ASCII capital maps to its small letter; every other character is unchanged |
| Assembler.Lower | applications/popart/bert/bert_data/pretraining_dataset.py:353 | `lower()` character by character |
| Assembler.Select | applications/popart/bert/bert_data/pretraining_dataset.py:354-374 | generated data first, then TFRecord input (first file name ending in `tfrecord`, any case), then caching when `epochs_to_cache > 0`, else streaming; each case exactly under its condition |
| Assembler.NewGeneratedLoader | applications/popart/bert/bert_data/pretraining_dataset.py:354-360 | a synthetic loader with the configured layout, ranges, batch size and length |
| Assembler.NewCachedLoader | applications/popart/bert/bert_data/pretraining_dataset.py:370-372 | fails without files or on a misaligned file; otherwise a caching loader over the files whose length is total samples divided by samples per step |
| Assembler.NewBinaryLoader | applications/popart/bert/bert_data/pretraining_dataset.py:373-374 | a streaming loader over the files with the configured layout, shuffle and batch size |
| Assembler.Serve | applications/popart/bert/bert_data/pretraining_dataset.py:376-386 | a distributed run reads through the sampler; a loader of length 0 raises insufficient data, and a failing length raises its error; otherwise the transform over the loader |
| Assembler.GetBertDataset | applications/popart/bert/bert_data/pretraining_dataset.py:329-393 | no input files and packed TFRecord input each raise under their exact condition; for the caching and streaming loaders, a missing or misaligned file raises its error, and otherwise the dataset is built exactly when at least one whole step of samples exists (or the distributed length is positive), else insufficient data; a built dataset wraps a loader with positive length and the configured vocabulary and mask sizes |
| SquadText.RunLength | applications/tensorflow/bert/bert_data/squad.py:395-403 | the leading run of non-whitespace characters, ended by whitespace or the end |
| SquadText.WordsShape | applications/tensorflow/bert/bert_data/squad.py:395-403 | every word is non-empty and holds no whitespace character |
| SquadText.WordsSnoc | applications/tensorflow/bert/bert_data/squad.py:395-403 | one more character: whitespace leaves the words; a character after whitespace starts a word; any other extends the last word |
| SquadText.WordCountSnoc | applications/tensorflow/bert/bert_data/squad.py:395-404 | one more character adds at most one word |
| SquadText.SplitParagraph | applications/tensorflow/bert/bert_data/squad.py:392-404 | the words of the text; one offset per character, the index of the last word begun so far; offsets non-decreasing within `[-1, words-1]` |
| SquadText.OffsetsMonotone | applications/tensorflow/bert/bert_data/squad.py:404 | offsets never decrease and lie within `[-1, words-1]` |
| SquadText.WordsGrow | applications/tensorflow/bert/bert_data/squad.py:395-404 | the words of a prefix are the first words of the text, the last possibly cut short |
| SquadText.LastWordEndsWith | applications/tensorflow/bert/bert_data/squad.py:399-402 | after a non-whitespace character, the last word ends with it |
| SquadText.CharInItsWord | applications/tensorflow/bert/bert_data/squad.py:404 | a non-whitespace character belongs to the word its offset names |
| SquadText.PyIndex | applications/tensorflow/bert/bert_data/squad.py:425-427 | Python list indexing: negative indices count from the end; outside `[-len, len)` it raises |
| SquadText.SliceBound | applications/tensorflow/bert/bert_data/squad.py:435 | a slice bound clipped into `[0, len]` |
| SquadText.PySlice | applications/tensorflow/bert/bert_data/squad.py:435 | agrees with the Dafny slice on in-range bounds |
| SquadText.ExampleOf | applications/tensorflow/bert/bert_data/squad.py:407-454 | outside training, an example without answer fields; for training, raises exactly when an answerable question lacks exactly one answer (ValueError) or its first or last character lies outside the paragraph (IndexError, Python indexing); impossible questions get -1, -1 and ""; a kept example's positions are the words of the answer's first and last characters, and its cleaned answer text occurs in those words joined by spaces |
| SquadText.AnswerStartsInItsWord | applications/tensorflow/bert/bert_data/squad.py:423-425 | the answer's first character lies in the start word |
| SquadText.ReadQas | applications/tensorflow/bert/bert_data/squad.py:406-455 | succeeds exactly when every question converts; keeps at most one example per question, all over the paragraph's words |
| SquadText.ReadParagraph | applications/tensorflow/bert/bert_data/squad.py:391-455 | splitting the text, then converting each question in turn, stopping at the first error |
| SquadText.ReadQasAbort | applications/tensorflow/bert/bert_data/squad.py:416-419 | once a question raises, later questions change nothing |
| TokenMaps.TruncateQuery | applications/tensorflow/bert/bert_data/squad.py:114-115 | the first `max_query_length` tokens, and all of them when they fit |
| TokenMaps.Pieces | applications/tensorflow/bert/bert_data/squad.py:120-122 | each word's sub-tokens |
| TokenMaps.AppendPieces | applications/tensorflow/bert/bert_data/squad.py:123-125 | the sub-tokens appended, each mapped to word w |
| TokenMaps.BuildTokenMaps | applications/tensorflow/bert/bert_data/squad.py:117-125 | all sub-tokens in word order; `orig_to_tok_index[w]` is the index of word w's first sub-token; every sub-token maps back to its word; `tok_to_orig_index` is as long as the sub-tokens, in range and non-decreasing |
| TokenMaps.AnswerTokenSpan | applications/tensorflow/bert/bert_data/squad.py:133-138 | from the start word's first sub-token to the end word's last sub-token (the last sub-token of all for the last word), with Python indexing |
| TokenMaps.ImproveAnswerSpan | applications/tensorflow/bert/bert_data/squad.py:460-494 | the match with the smallest start and then the largest end inside the input span, or the input span when no sub-span matches |
| TokenMaps.FirstMatchUnique | applications/tensorflow/bert/bert_data/squad.py:488-492 | that first match is unique |
| DocSpans.MakeDocSpans | applications/tensorflow/bert/bert_data/squad.py:149-160 | no spans for an empty document; the first starts at 0; each holds `min(remaining, max_tokens_for_doc)` tokens; the next starts `min(length, doc_stride)` later; the last ends at the document end |
| DocSpans.WindowsCover | applications/tensorflow/bert/bert_data/squad.py:149-160 | every sub-token lies in some span |
| DocSpans.ScoreOrder | applications/tensorflow/bert/bert_data/squad.py:327-331 | the integer score orders spans, ties included, as `min + 0.01 * length` does |
| DocSpans.CheckIsMaxContext | applications/tensorflow/bert/bert_data/squad.py:300-335 | true exactly for the first span covering the position with the highest score; such a span covers the position |
| DocSpans.MaxContextUnique | applications/tensorflow/bert/bert_data/squad.py:319-335 | at most one span is the maximum-context span |
| DocSpans.MaxContextExists | applications/tensorflow/bert/bert_data/squad.py:319-335 | a covered position has a maximum-context span |
| DocSpans.ExactlyOneMaxContext | applications/tensorflow/bert/bert_data/squad.py:300-335 | in a sliding-window layout every position has exactly one maximum-context span |
| Features.FeatureTokens | applications/tensorflow/bert/bert_data/squad.py:163-187 | `[CLS]`, the query, `[SEP]`, the span's sub-tokens, `[SEP]`: `len(query) + length + 3` tokens |
| Features.Padded | applications/tensorflow/bert/bert_data/squad.py:195-199 | the list followed by zeros up to the length |
| Features.PadToLength | applications/tensorflow/bert/bert_data/squad.py:195-199 | ids, mask and segment ids each zero-padded to `max_seq_length` |
| Features.RecordToken | applications/tensorflow/bert/bert_data/squad.py:176-183 | records the word of window position i and whether this span is its maximum-context span |
| Features.AppendWindow | applications/tensorflow/bert/bert_data/squad.py:175-185 | the window's sub-tokens appended with segment id 1; each position mapped to its word and to its max-context flag |
| Features.AssembleFeature | applications/tensorflow/bert/bert_data/squad.py:162-203 | the feature's tokens, maps and padded ids, mask and segment ids as defined above, with the given id, example and positions |
| Features.FeatureShape | applications/tensorflow/bert/bert_data/squad.py:189-203 | all three lists are `max_seq_length` long; the mask is 1 exactly on the tokens; segments are 0 through the first `[SEP]`, then 1 to the last token, then 0 |
| Features.AnswerPositions | applications/tensorflow/bert/bert_data/squad.py:205-226 | no positions outside training; for training, 0 and 0 for an impossible question or an answer not wholly inside the window, otherwise the answer's sub-token span shifted by `len(query) + 2 - span.start` |
| Features.NoAnswerAtCls | applications/tensorflow/bert/bert_data/squad.py:213-226 | an impossible question or an answer outside the window is labelled with both positions on the feature's `[CLS]` token |
| Features.AnswerInFeature | applications/tensorflow/bert/bert_data/squad.py:205-222 | for an answer inside the span, the feature's tokens at its positions are exactly the answer's sub-tokens |
| Features.TokenAnswerSpan | applications/tensorflow/bert/bert_data/squad.py:132-138 | succeeds exactly when the example has positions and text and both indices are valid; the TypeError and IndexError cases |
| Conversion.ConvertExample | applications/tensorflow/bert/bert_data/squad.py:111-277 | fails exactly when the answer does not carry over to sub-tokens; otherwise one feature per span of the sliding window over the sub-tokens, numbered on from the first id, with the refined answer |
| Conversion.AllConvertedAt | applications/tensorflow/bert/bert_data/squad.py:111-277 | chunk i holds what example i converts to, numbered on from the features before it |
| Conversion.EmittedAppend | applications/tensorflow/bert/bert_data/squad.py:276-277 | the next example's features continue the ids |
| Conversion.ConvertedStep | applications/tensorflow/bert/bert_data/squad.py:276-277 | appending the next example's features keeps the features before them, continues the ids and extends the in-order record by that example |
| Conversion.ConvertEach | applications/tensorflow/bert/bert_data/squad.py:111-277 | succeeds exactly when no example fails, and then emits every example's features in order with ids counting up from 1000000000; otherwise raises the error of the first failing example |
| Conversion.PyMod | applications/tensorflow/bert/bert_data/squad.py:279 | Python's `%`: in `[0, b)` for b > 0, in `(b, 0]` for b < 0 |
| Conversion.PaddingFills | applications/tensorflow/bert/bert_data/squad.py:279-280 | for `padding_to > 0` the padding is the least count, below `padding_to`, that makes the total a multiple of it |
| Conversion.Dummy | applications/tensorflow/bert/bert_data/squad.py:281-293 | the padding feature: id -1, positions -1 |
| Conversion.AppendPadding | applications/tensorflow/bert/bert_data/squad.py:280-295 | `count` dummies appended (none for a negative count) |
| Conversion.ConvertExamplesToFeatures | applications/tensorflow/bert/bert_data/squad.py:103-297 | succeeds exactly when no example fails, otherwise raises the first failure; the n real features are the examples' features in order, ids from 1000000000 on; then exactly `(padding_to - n) % padding_to` dummies (none if negative); n is returned |

## Left out

- File I/O is not modelled: `glob.glob`, `os.path.getsize` and `np.fromfile`. A file is given as its name, byte size and decoded elements. The result of globbing the input patterns is a parameter of `Assembler.GetBertDataset`.
- The random generators are not modelled: the shuffles are arbitrary permutations and `randint` draws arbitrary values in range. Reproducibility from `seed` is not modelled.
- `print`, logging, `tqdm` and the `tf.logging` blocks of `convert_examples_to_features` produce no data and are dropped.
- Several collaborators are outside the model: `PretrainingTfRecordDataLoader`, `DistributedDataSampler`, `SampleGenerator` and `DataSet`. The TFRecord loader and the distributed sampler are known only by their lengths, which are parameters. The final `DataSet` wrapping is not modelled.
- Configurations that divide by zero (`ZeroDivisionError`) are excluded by requires: a zero duplication factor, batch size or record size. So is `padding_to == 0`.
- `BinaryDataLoader.data` does not exist before `__iter__`. The model starts with an empty buffer, so a `__next__` before `__iter__` behaves as on an exhausted buffer instead of raising `AttributeError`.
- Transform.BertDataTransform.Next: takes the field arrays the wrapped loader yielded. `__iter__` and `next(self.dataloader_iterator)` are not composed with the loaders' `Next`. It requires the id and label arrays to be distinct objects.
- Assembler.Lower: folds ASCII letters only, while Python's `lower()` folds all of Unicode.
- `tokenizer.tokenize`, `convert_tokens_to_ids` and `whitespace_tokenize` are function parameters. The model proves nothing about WordPiece itself.
- JSON loading and the loops over entries and paragraphs of `read_squad_examples` are not modelled. `SquadText.ReadParagraph` converts one already-parsed paragraph.
- `output_fn` is not modelled as a callback. The features it would receive are returned in order.
- Conversion.Dummy: does not carry the dummy feature's `token_to_orig_map` (`[0]`) or `token_is_max_context` (`False`).
- DocSpans.MakeDocSpans: requires that the window advances (`max_tokens_for_doc > 0` and `doc_stride > 0`) unless the document is empty or fits in one window. Otherwise the source's window loop does not stop. `Conversion.ConvertExample`, `Conversion.ConvertEach` and `Conversion.ConvertExamplesToFeatures` require this only for the examples whose windows are reached: an example whose answer raises first, and every example after it, are not constrained.
- DocSpans.CheckIsMaxContext: uses the exact score `100 * min + length`. Rounding of the floating-point score `min + 0.01 * length` is not modelled.
- `FeatureWriter` and `get_squad_dataset` are TFRecord serialisation and `tf.data` plumbing, and are not modelled.
