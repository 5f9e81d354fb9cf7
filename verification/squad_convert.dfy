/**
 * The conversion driver: each example's features in turn with unique ids counting
 * on across examples, then dummy features until the count is a multiple of
 * `paddingTo`.
 */
module Conversion {
  import opened Common
  import opened SquadText
  import opened TokenMaps
  import opened DocSpans
  import opened Features

  /**
   * All features of one example, or the error its answer raises. `w` and `tokSpan`
   * are the windows and the answer's sub-token span behind the features.
   */
  method ConvertExample(example: SquadExample, exampleIndex: nat, firstUniqueId: int, tokenize: Tokenizer,
                        toId: Vocab, maxSeqLength: int, docStride: int, maxQueryLength: int, isTraining: bool)
    returns (r: Result<seq<Feature>, ConvertError>, ghost w: Windows, ghost tokSpan: (int, int))
    requires ConvertFailure(example, tokenize, isTraining).None? ==> Converts(example, tokenize, maxSeqLength, docStride, maxQueryLength)
    ensures r.Err? <==> ConvertFailure(example, tokenize, isTraining).Some?
    ensures r.Err? ==> r.error == ConvertFailure(example, tokenize, isTraining).value
    ensures r.Ok? ==> Converted(example, exampleIndex, firstUniqueId, tokenize, toId, maxSeqLength, docStride,
                                maxQueryLength, isTraining, r.value, w, tokSpan)
  {
    var query := QueryOf(example, tokenize, maxQueryLength);
    var tokToOrig, origToTok, allDocTokens := BuildTokenMaps(example.docTokens, tokenize);
    assert origToTok == WordStarts(example.docTokens, tokenize);
    var answerSpan := (-1, -1);
    if Answerable(example, isTraining) {
      var initial := TokenAnswerSpan(example, origToTok, |allDocTokens|);
      if initial.Err? {
        return Err(initial.error), Windows(query, allDocTokens, tokToOrig, [], maxSeqLength), answerSpan;
      }
      var answer := Join(tokenize(example.origAnswerText.value), " ");
      var s, e := ImproveAnswerSpan(allDocTokens, initial.value.0, initial.value.1, answer);
      answerSpan := (s, e);
    }
    var maxTokensForDoc := maxSeqLength - |query| - 3;
    var spans := MakeDocSpans(|allDocTokens|, maxTokensForDoc, docStride);
    var windows := Windows(query, allDocTokens, tokToOrig, spans, maxSeqLength);
    var labels := Labels(exampleIndex, firstUniqueId, isTraining, example.isImpossible, answerSpan);
    var features := WindowFeatures(windows, toId, labels);
    r, w, tokSpan := Ok(features), windows, answerSpan;
  }

  /** Python's `a % b`: the remainder takes the sign of the divisor. */
  function PyMod(a: int, b: int): (m: int)
    requires b != 0
    ensures b > 0 ==> m == a % b && 0 <= m < b
    ensures b < 0 ==> b < m <= 0
  {
    if b > 0 || a % b == 0 then a % b else a % b + b
  }

  /** Dummy features needed to bring `numFeatures` up to a multiple of `paddingTo`. */
  function NumPadding(numFeatures: nat, paddingTo: int): int
    requires paddingTo != 0
  {
    PyMod(paddingTo - numFeatures, paddingTo)
  }

  /** Quotient and remainder are the only ones with `0 <= r < p`. */
  lemma DivModUnique(a: int, p: int, q: int, r: int)
    requires p > 0 && a == p * q + r && 0 <= r < p
    ensures a % p == r && a / p == q
  {
    var q0, r0 := a / p, a % p;
    assert p * q + r == p * q0 + r0;
    if q > q0 {
      assert p * (q - q0) == p * q - p * q0;
      MulAtLeast(p, q - q0);
    } else if q < q0 {
      assert p * (q0 - q) == p * q0 - p * q;
      MulAtLeast(p, q0 - q);
    }
  }

  lemma {:induction false} MulAtLeast(p: int, d: int)
    requires p > 0 && d >= 1
    ensures p * d >= p
    decreases d
  {
    if d > 1 {
      MulAtLeast(p, d - 1);
      assert p * d == p * (d - 1) + p;
    }
  }

  predicate IsMultiple(count: int, paddingTo: int)
    requires paddingTo > 0
  {
    count % paddingTo == 0
  }

  /** With a positive `paddingTo`, the padding is the least that makes the count a multiple of it. */
  lemma PaddingFills(numFeatures: nat, paddingTo: int)
    requires paddingTo > 0
    ensures var pad := NumPadding(numFeatures, paddingTo);
            0 <= pad < paddingTo && IsMultiple(numFeatures + pad, paddingTo) &&
            forall count :: numFeatures <= count < numFeatures + pad ==> !IsMultiple(count, paddingTo)
  {
    var pad := NumPadding(numFeatures, paddingTo);
    var q, m := numFeatures / paddingTo, numFeatures % paddingTo;
    if m == 0 {
      DivModUnique(paddingTo - numFeatures, paddingTo, 1 - q, 0);
      assert IsMultiple(numFeatures + pad, paddingTo);
    } else {
      DivModUnique(paddingTo - numFeatures, paddingTo, -q, paddingTo - m);
      DivModUnique(numFeatures + pad, paddingTo, q + 1, 0);
      forall count | numFeatures <= count < numFeatures + pad
        ensures !IsMultiple(count, paddingTo)
      {
        DivModUnique(count, paddingTo, q, m + count - numFeatures);
      }
    }
  }

  /** The padding record for a sequence length. */
  function Dummy(maxSeqLength: int): (f: Feature)
    ensures f.DummyFeature? && f.uniqueId == -1 && f.startPosition == Some(-1) && f.endPosition == Some(-1)
  {
    var zeros := seq(if maxSeqLength < 0 then 0 else maxSeqLength, _ => 0);
    DummyFeature(-1, 0, 0, zeros, zeros, zeros, zeros, Some(-1), Some(-1), false)
  }

  /** Features emitted so far: real ones with consecutive ids from 1000000000, in example order. */
  predicate Emitted(features: seq<Feature>, numExamples: nat)
  {
    (forall k :: 0 <= k < |features| ==>
       features[k].InputFeatures? && features[k].uniqueId == FIRST_UNIQUE_ID + k && features[k].exampleIndex < numExamples) &&
    (forall k, l :: 0 <= k <= l < |features| ==> features[k].exampleIndex <= features[l].exampleIndex)
  }

  lemma EmittedAppend(features: seq<Feature>, more: seq<Feature>, exampleIndex: nat)
    requires Emitted(features, exampleIndex) && Numbered(more, exampleIndex, FIRST_UNIQUE_ID + |features|)
    ensures Emitted(features + more, exampleIndex + 1)
  {
  }

  /**
   * The first `|chunks|` examples converted in order: chunk `i` holds the features of
   * example `i`, numbered on from the features of the examples before it.
   */
  ghost predicate AllConverted(examples: seq<SquadExample>, tokenize: Tokenizer, toId: Vocab, maxSeqLength: int,
                               docStride: int, maxQueryLength: int, isTraining: bool,
                               chunks: seq<seq<Feature>>, ws: seq<Windows>, tokSpans: seq<(int, int)>)
    decreases |chunks|
  {
    |chunks| == |ws| == |tokSpans| <= |examples| &&
    (chunks != [] ==>
       var n := |chunks| - 1;
       AllConverted(examples, tokenize, toId, maxSeqLength, docStride, maxQueryLength, isTraining,
                    chunks[..n], ws[..n], tokSpans[..n]) &&
       Converted(examples[n], n, FIRST_UNIQUE_ID + |Flatten(chunks[..n])|, tokenize, toId, maxSeqLength, docStride,
                 maxQueryLength, isTraining, chunks[n], ws[n], tokSpans[n]))
  }

  lemma AllConvertedSnoc(examples: seq<SquadExample>, tokenize: Tokenizer, toId: Vocab, maxSeqLength: int,
                         docStride: int, maxQueryLength: int, isTraining: bool,
                         chunks: seq<seq<Feature>>, ws: seq<Windows>, tokSpans: seq<(int, int)>,
                         chunk: seq<Feature>, w: Windows, tokSpan: (int, int))
    requires AllConverted(examples, tokenize, toId, maxSeqLength, docStride, maxQueryLength, isTraining, chunks, ws, tokSpans)
    requires |chunks| < |examples|
    requires Converted(examples[|chunks|], |chunks|, FIRST_UNIQUE_ID + |Flatten(chunks)|, tokenize, toId, maxSeqLength,
                       docStride, maxQueryLength, isTraining, chunk, w, tokSpan)
    ensures AllConverted(examples, tokenize, toId, maxSeqLength, docStride, maxQueryLength, isTraining,
                         chunks + [chunk], ws + [w], tokSpans + [tokSpan])
    ensures Flatten(chunks + [chunk]) == Flatten(chunks) + chunk
  {
    var n := |chunks|;
    assert (chunks + [chunk])[..n] == chunks && (chunks + [chunk])[n] == chunk;
    assert (ws + [w])[..n] == ws && (ws + [w])[n] == w;
    assert (tokSpans + [tokSpan])[..n] == tokSpans && (tokSpans + [tokSpan])[n] == tokSpan;
  }

  lemma SameConverted(example: SquadExample, exampleIndex: nat, firstUniqueId: int, tokenize: Tokenizer,
                      toId: Vocab, maxSeqLength: int, docStride: int, maxQueryLength: int, isTraining: bool,
                      features: seq<Feature>, w: Windows, tokSpan: (int, int),
                      features': seq<Feature>, w': Windows, tokSpan': (int, int))
    requires features == features' && w == w' && tokSpan == tokSpan'
    requires Converted(example, exampleIndex, firstUniqueId, tokenize, toId, maxSeqLength, docStride, maxQueryLength,
                       isTraining, features, w, tokSpan)
    ensures Converted(example, exampleIndex, firstUniqueId, tokenize, toId, maxSeqLength, docStride, maxQueryLength,
                      isTraining, features', w', tokSpan')
  {
  }

  /** Each of the converted examples: chunk `i` is what example `i` converts to. */
  lemma {:induction false} AllConvertedAt(examples: seq<SquadExample>, tokenize: Tokenizer, toId: Vocab, maxSeqLength: int,
                                          docStride: int, maxQueryLength: int, isTraining: bool,
                                          chunks: seq<seq<Feature>>, ws: seq<Windows>, tokSpans: seq<(int, int)>, i: nat)
    requires AllConverted(examples, tokenize, toId, maxSeqLength, docStride, maxQueryLength, isTraining, chunks, ws, tokSpans)
    requires i < |chunks|
    ensures i < |examples| && i < |ws| && i < |tokSpans|
    ensures Converted(examples[i], i, FIRST_UNIQUE_ID + |Flatten(chunks[..i])|, tokenize, toId, maxSeqLength, docStride,
                      maxQueryLength, isTraining, chunks[i], ws[i], tokSpans[i])
    decreases |chunks|
  {
    var n := |chunks| - 1;
    if i < n {
      assert chunks[..n][..i] == chunks[..i];
      AllConvertedAt(examples, tokenize, toId, maxSeqLength, docStride, maxQueryLength, isTraining,
                     chunks[..n], ws[..n], tokSpans[..n], i);
      SameConverted(examples[i], i, FIRST_UNIQUE_ID + |Flatten(chunks[..i])|, tokenize, toId, maxSeqLength, docStride,
                    maxQueryLength, isTraining, chunks[..n][i], ws[..n][i], tokSpans[..n][i], chunks[i], ws[i], tokSpans[i]);
    }
  }

  /**
   * Every example converted in order, unique ids counting up from 1000000000 across
   * all of them; `chunks` are the features example by example. The first example
   * that fails stops the conversion.
   */
  method ConvertEach(examples: seq<SquadExample>, tokenize: Tokenizer, toId: Vocab,
                     maxSeqLength: int, docStride: int, maxQueryLength: int, isTraining: bool)
    returns (r: Result<seq<Feature>, ConvertError>,
             ghost chunks: seq<seq<Feature>>, ghost ws: seq<Windows>, ghost tokSpans: seq<(int, int)>)
    requires forall i :: 0 <= i < |examples| && NoFailureBefore(examples, tokenize, isTraining, i + 1) ==>
               Converts(examples[i], tokenize, maxSeqLength, docStride, maxQueryLength)
    ensures AllConverted(examples, tokenize, toId, maxSeqLength, docStride, maxQueryLength, isTraining, chunks, ws, tokSpans)
    ensures r.Ok? <==> NoFailureBefore(examples, tokenize, isTraining, |examples|)
    ensures r.Err? ==> exists k :: 0 <= k < |examples| && ConvertFailure(examples[k], tokenize, isTraining) == Some(r.error) &&
                                   NoFailureBefore(examples, tokenize, isTraining, k)
    ensures r.Ok? ==> Emitted(r.value, |examples|)
    ensures r.Ok? ==> |chunks| == |examples| && r.value == Flatten(chunks)
    ensures r.Err? ==> |chunks| < |examples| && ConvertFailure(examples[|chunks|], tokenize, isTraining) == Some(r.error)
  {
    var features: seq<Feature> := [];
    chunks, ws, tokSpans := [], [], [];
    for exampleIndex := 0 to |examples|
      invariant |chunks| == exampleIndex && features == Flatten(chunks)
      invariant NoFailureBefore(examples, tokenize, isTraining, exampleIndex)
      invariant AllConverted(examples, tokenize, toId, maxSeqLength, docStride, maxQueryLength, isTraining, chunks, ws, tokSpans)
      invariant Emitted(features, exampleIndex)
    {
      assert NoFailureBefore(examples, tokenize, isTraining, exampleIndex + 1) ==>
             Converts(examples[exampleIndex], tokenize, maxSeqLength, docStride, maxQueryLength);
      var next;
      next, chunks, ws, tokSpans := ConvertNext(examples, tokenize, toId, maxSeqLength, docStride, maxQueryLength, isTraining,
                                                exampleIndex, features, chunks, ws, tokSpans);
      if next.Err? {
        assert ConvertFailure(examples[exampleIndex], tokenize, isTraining) == Some(next.error);
        return next, chunks, ws, tokSpans;
      }
      features := next.value;
    }
    r := Ok(features);
  }

  /**
   * Appending the features of the next example, converted and numbered on from
   * `features`, keeps the features emitted so far and extends both the numbering and
   * the per-example record by one example.
   */
  lemma ConvertedStep(examples: seq<SquadExample>, tokenize: Tokenizer, toId: Vocab, maxSeqLength: int,
                      docStride: int, maxQueryLength: int, isTraining: bool,
                      chunks: seq<seq<Feature>>, ws: seq<Windows>, tokSpans: seq<(int, int)>,
                      features: seq<Feature>, chunk: seq<Feature>, w: Windows, tokSpan: (int, int))
    requires |chunks| < |examples| && features == Flatten(chunks)
    requires AllConverted(examples, tokenize, toId, maxSeqLength, docStride, maxQueryLength, isTraining, chunks, ws, tokSpans)
    requires Emitted(features, |chunks|)
    requires Converted(examples[|chunks|], |chunks|, FIRST_UNIQUE_ID + |features|, tokenize, toId, maxSeqLength,
                       docStride, maxQueryLength, isTraining, chunk, w, tokSpan)
    ensures AllConverted(examples, tokenize, toId, maxSeqLength, docStride, maxQueryLength, isTraining,
                         chunks + [chunk], ws + [w], tokSpans + [tokSpan])
    ensures features + chunk == Flatten(chunks + [chunk]) && (features + chunk)[..|features|] == features
    ensures Emitted(features + chunk, |chunks| + 1)
  {
    EmittedAppend(features, chunk, |chunks|);
    AllConvertedSnoc(examples, tokenize, toId, maxSeqLength, docStride, maxQueryLength, isTraining,
                     chunks, ws, tokSpans, chunk, w, tokSpan);
  }

  /** Converts the next example and appends its features to those of the examples before it. */
  method ConvertNext(examples: seq<SquadExample>, tokenize: Tokenizer, toId: Vocab,
                     maxSeqLength: int, docStride: int, maxQueryLength: int, isTraining: bool,
                     exampleIndex: nat, features: seq<Feature>, ghost chunks: seq<seq<Feature>>,
                     ghost ws: seq<Windows>, ghost tokSpans: seq<(int, int)>)
    returns (r: Result<seq<Feature>, ConvertError>,
             ghost chunks': seq<seq<Feature>>, ghost ws': seq<Windows>, ghost tokSpans': seq<(int, int)>)
    requires exampleIndex == |chunks| < |examples| && features == Flatten(chunks)
    requires NoFailureBefore(examples, tokenize, isTraining, exampleIndex + 1) ==>
               Converts(examples[exampleIndex], tokenize, maxSeqLength, docStride, maxQueryLength)
    requires AllConverted(examples, tokenize, toId, maxSeqLength, docStride, maxQueryLength, isTraining, chunks, ws, tokSpans)
    requires Emitted(features, |chunks|)
    requires NoFailureBefore(examples, tokenize, isTraining, exampleIndex)
    ensures r.Ok? <==> ConvertFailure(examples[exampleIndex], tokenize, isTraining).None?
    ensures r.Ok? ==> NoFailureBefore(examples, tokenize, isTraining, exampleIndex + 1)
    ensures r.Err? ==> ConvertFailure(examples[exampleIndex], tokenize, isTraining) == Some(r.error)
    ensures r.Ok? ==> |features| <= |r.value| && r.value[..|features|] == features && Emitted(r.value, exampleIndex + 1)
    ensures r.Err? ==> chunks' == chunks && ws' == ws && tokSpans' == tokSpans &&
                       ConvertFailure(examples[|chunks|], tokenize, isTraining) == Some(r.error)
    ensures r.Ok? ==> |chunks'| == |chunks| + 1 && r.value == Flatten(chunks') && Emitted(r.value, |chunks| + 1)
    ensures AllConverted(examples, tokenize, toId, maxSeqLength, docStride, maxQueryLength, isTraining, chunks', ws', tokSpans')
  {
    assert ConvertFailure(examples[exampleIndex], tokenize, isTraining).None? ==>
           NoFailureBefore(examples, tokenize, isTraining, exampleIndex + 1);
    var converted, w, tokSpan := ConvertExample(examples[exampleIndex], exampleIndex, FIRST_UNIQUE_ID + |features|,
                                                tokenize, toId, maxSeqLength, docStride, maxQueryLength, isTraining);
    if converted.Err? {
      return Err(converted.error), chunks, ws, tokSpans;
    }
    ConvertedStep(examples, tokenize, toId, maxSeqLength, docStride, maxQueryLength, isTraining,
                  chunks, ws, tokSpans, features, converted.value, w, tokSpan);
    r, chunks', ws', tokSpans' := Ok(features + converted.value), chunks + [converted.value], ws + [w], tokSpans + [tokSpan];
  }

  /** `count` dummy features appended. */
  method AppendPadding(features: seq<Feature>, count: int, maxSeqLength: int) returns (padded: seq<Feature>)
    ensures |padded| == |features| + (if count < 0 then 0 else count) && padded[..|features|] == features
    ensures forall j :: |features| <= j < |padded| ==> padded[j] == Dummy(maxSeqLength)
  {
    padded := features;
    for k := 0 to (if count < 0 then 0 else count)
      invariant |padded| == |features| + k && padded[..|features|] == features
      invariant forall j :: |features| <= j < |padded| ==> padded[j] == Dummy(maxSeqLength)
    {
      padded := padded + [Dummy(maxSeqLength)];
    }
  }

  /**
   * The features of all examples, then dummy features up to a multiple of
   * `paddingTo`. Returns the features emitted and the number of real ones.
   */
  method ConvertExamplesToFeatures(examples: seq<SquadExample>, tokenize: Tokenizer, toId: Vocab,
                                   maxSeqLength: int, docStride: int, maxQueryLength: int, isTraining: bool,
                                   paddingTo: int)
    returns (r: Result<(seq<Feature>, nat), ConvertError>,
             ghost chunks: seq<seq<Feature>>, ghost ws: seq<Windows>, ghost tokSpans: seq<(int, int)>)
    requires paddingTo != 0
    requires forall i :: 0 <= i < |examples| && NoFailureBefore(examples, tokenize, isTraining, i + 1) ==>
               Converts(examples[i], tokenize, maxSeqLength, docStride, maxQueryLength)
    ensures AllConverted(examples, tokenize, toId, maxSeqLength, docStride, maxQueryLength, isTraining, chunks, ws, tokSpans)
    ensures r.Ok? ==>
              var (features, numFeatures) := r.value;
              |chunks| == |examples| && numFeatures <= |features| &&
              features[..numFeatures] == Flatten(chunks) && Emitted(features[..numFeatures], |examples|) &&
              |features| - numFeatures == (if NumPadding(numFeatures, paddingTo) < 0 then 0 else NumPadding(numFeatures, paddingTo)) &&
              (forall k :: numFeatures <= k < |features| ==> features[k] == Dummy(maxSeqLength))
    ensures r.Err? ==> |chunks| < |examples| && ConvertFailure(examples[|chunks|], tokenize, isTraining) == Some(r.error)
    ensures r.Ok? <==> NoFailureBefore(examples, tokenize, isTraining, |examples|)
    ensures r.Err? ==> exists k :: 0 <= k < |examples| && ConvertFailure(examples[k], tokenize, isTraining) == Some(r.error) &&
                                   NoFailureBefore(examples, tokenize, isTraining, k)
    ensures r.Ok? ==>
              var (features, numFeatures) := r.value;
              numFeatures <= |features| && Emitted(features[..numFeatures], |examples|) &&
              |features| - numFeatures == (if NumPadding(numFeatures, paddingTo) < 0 then 0 else NumPadding(numFeatures, paddingTo)) &&
              (forall k :: numFeatures <= k < |features| ==> features[k] == Dummy(maxSeqLength))
  {
    var converted;
    converted, chunks, ws, tokSpans := ConvertEach(examples, tokenize, toId, maxSeqLength, docStride, maxQueryLength, isTraining);
    if converted.Err? {
      return Err(converted.error), chunks, ws, tokSpans;
    }
    var numFeatures := |converted.value|;
    var features := AppendPadding(converted.value, NumPadding(numFeatures, paddingTo), maxSeqLength);
    r := Ok((features, numFeatures));
  }
}
