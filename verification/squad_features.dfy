/**
 * SQuAD examples to model inputs, window by window: for each window over an
 * example's sub-tokens one feature `[CLS] question [SEP] window [SEP]`,
 * zero-padded to the sequence length, with maps from feature positions to words and
 * to the max-context flag, and the answer's position inside the feature for
 * training.
 */
module Features {
  import opened Common
  import opened SquadText
  import opened TokenMaps
  import opened DocSpans

  const FIRST_UNIQUE_ID: int := 1000000000
  const CLS: string := "[CLS]"
  const SEP: string := "[SEP]"

  /** Token-to-id lookup of the vocabulary; not part of this model. */
  type Vocab = string -> int

  /**
   * A model input. `DummyFeature` is the padding record: unique id -1, every list
   * `maxSeqLength` zeros, both positions -1; its `token_to_orig_map` (`[0]`) and
   * `token_is_max_context` (`False`) are not carried.
   */
  datatype Feature =
    | InputFeatures(uniqueId: int, exampleIndex: nat, docSpanIndex: nat, tokens: seq<string>,
                    tokenToOrigMap: map<nat, nat>, tokenIsMaxContext: map<nat, bool>,
                    inputIds: seq<int>, inputMask: seq<int>, segmentIds: seq<int>,
                    startPosition: Option<int>, endPosition: Option<int>, isImpossible: bool)
    | DummyFeature(uniqueId: int, exampleIndex: nat, docSpanIndex: nat, tokenIds: seq<int>,
                   inputIds: seq<int>, inputMask: seq<int>, segmentIds: seq<int>,
                   startPosition: Option<int>, endPosition: Option<int>, isImpossible: bool)

  datatype ConvertError =
    | MissingAnswer       // TypeError: a training example without answer positions or text
    | IndexOutOfRange     // IndexError: an answer position outside the word list

  /** What every window of one example shares. */
  datatype Windows = Windows(query: seq<string>, allDocTokens: seq<string>, tokToOrig: seq<nat>,
                             spans: seq<DocSpan>, maxSeqLength: int)

  predicate WindowsOk(w: Windows)
  {
    |w.tokToOrig| == |w.allDocTokens| &&
    forall k :: 0 <= k < |w.spans| ==> w.spans[k].start + w.spans[k].length <= |w.allDocTokens|
  }

  /** `[CLS] question [SEP] window [SEP]`. */
  function FeatureTokens(query: seq<string>, allDocTokens: seq<string>, span: DocSpan): (tokens: seq<string>)
    requires span.start + span.length <= |allDocTokens|
    ensures |tokens| == |query| + span.length + 3
    ensures tokens[0] == CLS && tokens[|query| + 1] == SEP && tokens[|tokens| - 1] == SEP
    ensures tokens[1..|query| + 1] == query
    ensures tokens[|query| + 2..|tokens| - 1] == allDocTokens[span.start..span.start + span.length]
  {
    [CLS] + query + [SEP] + allDocTokens[span.start..span.start + span.length] + [SEP]
  }

  function Zeros(n: nat): seq<int>
  {
    seq(n, _ => 0)
  }

  /** `xs` with zeros appended up to length `n`. */
  function Padded(xs: seq<int>, n: int): (p: seq<int>)
    ensures |p| == if |xs| < n then n else |xs|
    ensures p[..|xs|] == xs
    ensures forall k :: |xs| <= k < |p| ==> p[k] == 0
  {
    if |xs| < n then xs + Zeros(n - |xs|) else xs
  }

  /** Segment 0 for `[CLS]`, the question and its `[SEP]`; segment 1 from the window on. */
  function Segments(count: nat, docOffset: nat): seq<int>
  {
    seq(count, j => if j < docOffset then 0 else 1)
  }

  function Ids(tokens: seq<string>, toId: Vocab): seq<int>
  {
    seq(|tokens|, j requires 0 <= j < |tokens| => toId(tokens[j]))
  }

  function Ones(n: nat): seq<int>
  {
    seq(n, _ => 1)
  }

  /** Feature positions `offset ..` up to `count` of them map to the words of sub-tokens `start ..`. */
  ghost predicate WordsAt(m: map<nat, nat>, offset: nat, count: nat, tokToOrig: seq<nat>, start: nat)
    requires start + count <= |tokToOrig|
  {
    (forall p :: p in m <==> offset <= p < offset + count) &&
    (forall p :: p in m ==> m[p] == tokToOrig[start + p - offset])
  }

  /** Feature positions `offset ..` hold `flags` in order. */
  ghost predicate FlagsAt(m: map<nat, bool>, offset: nat, flags: seq<bool>)
  {
    (forall p :: p in m <==> offset <= p < offset + |flags|) &&
    (forall p :: p in m ==> m[p] == flags[p - offset])
  }

  function FlagAt(flags: seq<bool>, i: nat): bool
    requires i < |flags|
  {
    flags[i]
  }

  /** `flags[i]` tells whether window `k` is the max-context window of sub-token `start + i`. */
  ghost predicate MaxContextFlags(flags: seq<bool>, spans: seq<DocSpan>, k: nat, start: nat)
  {
    forall i :: 0 <= i < |flags| ==> (FlagAt(flags, i) <==> IsMaxContext(spans, start + i, k))
  }

  lemma MaxContextFlagsSnoc(flags: seq<bool>, spans: seq<DocSpan>, k: nat, start: nat, flag: bool)
    requires MaxContextFlags(flags, spans, k, start)
    requires flag <==> IsMaxContext(spans, start + |flags|, k)
    ensures MaxContextFlags(flags + [flag], spans, k, start)
  {
    forall i | 0 <= i < |flags| + 1
      ensures FlagAt(flags + [flag], i) <==> IsMaxContext(spans, start + i, k)
    {
      if i < |flags| {
        assert FlagAt(flags + [flag], i) == FlagAt(flags, i);
      }
    }
  }

  lemma FlagsAtStep(m: map<nat, bool>, offset: nat, flags: seq<bool>, flag: bool)
    requires FlagsAt(m, offset, flags)
    ensures FlagsAt(m[offset + |flags| := flag], offset, flags + [flag])
  {
  }

  lemma WordsAtStep(m: map<nat, nat>, offset: nat, count: nat, tokToOrig: seq<nat>, start: nat)
    requires start + count < |tokToOrig| && WordsAt(m, offset, count, tokToOrig, start)
    ensures WordsAt(m[offset + count := tokToOrig[start + count]], offset, count + 1, tokToOrig, start)
  {
  }

  /** The token fields of the feature for window `k`. */
  ghost predicate IsAssembled(f: Feature, w: Windows, k: nat, toId: Vocab)
    requires WindowsOk(w) && k < |w.spans|
  {
    var span := w.spans[k];
    var tokens := FeatureTokens(w.query, w.allDocTokens, span);
    var docOffset := |w.query| + 2;
    f.InputFeatures? && f.docSpanIndex == k && f.tokens == tokens &&
    WordsAt(f.tokenToOrigMap, docOffset, span.length, w.tokToOrig, span.start) &&
    (exists flags :: FlagsAt(f.tokenIsMaxContext, docOffset, flags) && |flags| == span.length &&
                     MaxContextFlags(flags, w.spans, k, span.start)) &&
    f.inputIds == Padded(Ids(tokens, toId), w.maxSeqLength) &&
    f.inputMask == Padded(Ones(|tokens|), w.maxSeqLength) &&
    f.segmentIds == Padded(Segments(|tokens|, docOffset), w.maxSeqLength)
  }

  /** Appends zeros to the three lists together until they reach `maxSeqLength`. */
  method PadToLength(inputIds: seq<int>, inputMask: seq<int>, segmentIds: seq<int>, maxSeqLength: int)
    returns (ids: seq<int>, mask: seq<int>, segments: seq<int>)
    requires |inputIds| == |inputMask| == |segmentIds|
    ensures ids == Padded(inputIds, maxSeqLength)
    ensures mask == Padded(inputMask, maxSeqLength)
    ensures segments == Padded(segmentIds, maxSeqLength)
  {
    ids, mask, segments := inputIds, inputMask, segmentIds;
    while |ids| < maxSeqLength
      invariant |ids| == |mask| == |segments| >= |inputIds|
      invariant |ids| == |inputIds| || |ids| <= maxSeqLength
      invariant ids == inputIds + Zeros(|ids| - |inputIds|)
      invariant mask == inputMask + Zeros(|ids| - |inputIds|)
      invariant segments == segmentIds + Zeros(|ids| - |inputIds|)
      decreases maxSeqLength - |ids|
    {
      assert Zeros(|ids| + 1 - |inputIds|) == Zeros(|ids| - |inputIds|) + [0];
      ids, mask, segments := ids + [0], mask + [0], segments + [0];
    }
    assert Zeros(0) == [];
  }

  /**
   * Records window `k`'s `i`-th sub-token at feature position `offset + i`: the word
   * it came from and whether this window is its max-context window.
   */
  method RecordToken(tokenToOrigMap: map<nat, nat>, tokenIsMaxContext: map<nat, bool>, ghost flags: seq<bool>,
                     offset: nat, i: nat, w: Windows, k: nat)
    returns (tokenToOrigMap': map<nat, nat>, tokenIsMaxContext': map<nat, bool>, ghost flags': seq<bool>)
    requires WindowsOk(w) && k < |w.spans| && i < w.spans[k].length
    requires WordsAt(tokenToOrigMap, offset, i, w.tokToOrig, w.spans[k].start)
    requires FlagsAt(tokenIsMaxContext, offset, flags) && |flags| == i
    requires MaxContextFlags(flags, w.spans, k, w.spans[k].start)
    ensures WordsAt(tokenToOrigMap', offset, i + 1, w.tokToOrig, w.spans[k].start)
    ensures FlagsAt(tokenIsMaxContext', offset, flags') && |flags'| == i + 1
    ensures MaxContextFlags(flags', w.spans, k, w.spans[k].start)
  {
    var splitTokenIndex := w.spans[k].start + i;
    WordsAtStep(tokenToOrigMap, offset, i, w.tokToOrig, w.spans[k].start);
    tokenToOrigMap' := tokenToOrigMap[offset + i := w.tokToOrig[splitTokenIndex]];
    var isMaxContext := CheckIsMaxContext(w.spans, k, splitTokenIndex);
    FlagsAtStep(tokenIsMaxContext, offset, flags, isMaxContext);
    tokenIsMaxContext' := tokenIsMaxContext[offset + i := isMaxContext];
    MaxContextFlagsSnoc(flags, w.spans, k, w.spans[k].start, isMaxContext);
    flags' := flags + [isMaxContext];
  }

  /** The window's part of a feature: its sub-tokens, their words and their max-context flags. */
  method AppendWindow(tokens: seq<string>, segmentIds: seq<int>, w: Windows, k: nat)
    returns (tokens': seq<string>, segmentIds': seq<int>, tokenToOrigMap: map<nat, nat>,
             tokenIsMaxContext: map<nat, bool>, ghost flags: seq<bool>)
    requires WindowsOk(w) && k < |w.spans|
    ensures var span := w.spans[k];
            tokens' == tokens + w.allDocTokens[span.start..span.start + span.length] &&
            segmentIds' == segmentIds + Ones(span.length)
    ensures WordsAt(tokenToOrigMap, |tokens|, w.spans[k].length, w.tokToOrig, w.spans[k].start)
    ensures FlagsAt(tokenIsMaxContext, |tokens|, flags) && |flags| == w.spans[k].length
    ensures MaxContextFlags(flags, w.spans, k, w.spans[k].start)
  {
    var span := w.spans[k];
    tokens', segmentIds', tokenToOrigMap, tokenIsMaxContext, flags := tokens, segmentIds, map[], map[], [];
    for i := 0 to span.length
      invariant tokens' == tokens + w.allDocTokens[span.start..span.start + i]
      invariant segmentIds' == segmentIds + Ones(i)
      invariant WordsAt(tokenToOrigMap, |tokens|, i, w.tokToOrig, span.start)
      invariant FlagsAt(tokenIsMaxContext, |tokens|, flags) && |flags| == i
      invariant MaxContextFlags(flags, w.spans, k, span.start)
    {
      tokenToOrigMap, tokenIsMaxContext, flags := RecordToken(tokenToOrigMap, tokenIsMaxContext, flags, |tokens|, i, w, k);
      var splitTokenIndex := span.start + i;
      assert w.allDocTokens[span.start..span.start + i + 1]
          == w.allDocTokens[span.start..span.start + i] + [w.allDocTokens[splitTokenIndex]];
      assert Ones(i + 1) == Ones(i) + [1];
      tokens' := tokens' + [w.allDocTokens[splitTokenIndex]];
      segmentIds' := segmentIds' + [1];
    }
  }

  /** The feature for window `k`, with the given id, example index and answer positions. */
  method AssembleFeature(w: Windows, k: nat, toId: Vocab, uniqueId: int, exampleIndex: nat,
                         positions: (Option<int>, Option<int>), isImpossible: bool)
    returns (f: Feature)
    requires WindowsOk(w) && k < |w.spans|
    ensures IsAssembled(f, w, k, toId)
    ensures f.uniqueId == uniqueId && f.exampleIndex == exampleIndex && f.isImpossible == isImpossible
    ensures f.startPosition == positions.0 && f.endPosition == positions.1
  {
    var tokens := [CLS];
    var segmentIds := [0];
    for i := 0 to |w.query|
      invariant tokens == [CLS] + w.query[..i]
      invariant segmentIds == Zeros(i + 1)
    {
      assert Zeros(i + 2) == Zeros(i + 1) + [0];
      assert w.query[..i + 1] == w.query[..i] + [w.query[i]];
      tokens := tokens + [w.query[i]];
      segmentIds := segmentIds + [0];
    }
    assert w.query[..|w.query|] == w.query;
    tokens := tokens + [SEP];
    segmentIds := segmentIds + [0];
    var tokenToOrigMap, tokenIsMaxContext;
    ghost var flags;
    tokens, segmentIds, tokenToOrigMap, tokenIsMaxContext, flags := AppendWindow(tokens, segmentIds, w, k);
    tokens := tokens + [SEP];
    segmentIds := segmentIds + [1];
    assert tokens == FeatureTokens(w.query, w.allDocTokens, w.spans[k]);
    assert segmentIds == Segments(|tokens|, |w.query| + 2);
    var inputIds := Ids(tokens, toId);
    var inputMask := Ones(|inputIds|);
    var ids, mask, segments := PadToLength(inputIds, inputMask, segmentIds, w.maxSeqLength);
    f := InputFeatures(uniqueId, exampleIndex, k, tokens, tokenToOrigMap, tokenIsMaxContext,
                       ids, mask, segments, positions.0, positions.1, isImpossible);
  }

  /**
   * A window no longer than `maxSeqLength - |question| - 3` gives a feature of exactly
   * `maxSeqLength` ids, mask bits and segment ids, with mask 1 and segment 0 on the
   * question part, mask 1 and segment 1 on the window part, and zeros after.
   */
  lemma FeatureShape(f: Feature, w: Windows, k: nat, toId: Vocab)
    requires WindowsOk(w) && k < |w.spans| && IsAssembled(f, w, k, toId)
    requires w.spans[k].length <= w.maxSeqLength - |w.query| - 3
    ensures |f.inputIds| == |f.inputMask| == |f.segmentIds| == w.maxSeqLength
    ensures forall j :: 0 <= j < |f.tokens| ==> f.inputMask[j] == 1 && f.inputIds[j] == toId(f.tokens[j])
    ensures forall j :: 0 <= j < |w.query| + 2 ==> f.segmentIds[j] == 0
    ensures forall j :: |w.query| + 2 <= j < |f.tokens| ==> f.segmentIds[j] == 1
    ensures forall j :: |f.tokens| <= j < w.maxSeqLength ==> f.inputIds[j] == 0 && f.inputMask[j] == 0 && f.segmentIds[j] == 0
  {
    var n := |f.tokens|;
    assert f.inputIds[..n] == Ids(f.tokens, toId);
    assert f.inputMask[..n] == Ones(n);
    assert f.segmentIds[..n] == Segments(n, |w.query| + 2);
    forall j | 0 <= j < n
      ensures f.inputMask[j] == 1 && f.inputIds[j] == toId(f.tokens[j])
    {
      assert f.inputIds[j] == f.inputIds[..n][j];
      assert f.inputMask[j] == f.inputMask[..n][j];
    }
    forall j | 0 <= j < n
      ensures f.segmentIds[j] == if j < |w.query| + 2 then 0 else 1
    {
      assert f.segmentIds[j] == f.segmentIds[..n][j];
    }
  }

  /**
   * The answer's positions inside the feature for window `span`: none when not
   * training, 0 and 0 for an impossible question or an answer not wholly inside the
   * window, otherwise the answer's sub-token span shifted past `[CLS]`, the question
   * and `[SEP]`.
   */
  function AnswerPositions(isTraining: bool, isImpossible: bool, tokSpan: (int, int), span: DocSpan, queryLength: nat)
    : (r: (Option<int>, Option<int>))
    ensures !isTraining <==> r.0.None?
    ensures r.0.None? <==> r.1.None?
    ensures isTraining && (isImpossible || tokSpan.0 < span.start || tokSpan.1 > span.start + span.length - 1) ==>
              r == (Some(0), Some(0))
    ensures isTraining && !isImpossible && span.start <= tokSpan.0 && tokSpan.1 <= span.start + span.length - 1 ==>
              r == (Some(tokSpan.0 - span.start + queryLength + 2), Some(tokSpan.1 - span.start + queryLength + 2))
  {
    if !isTraining then (None, None)
    else if isImpossible then (Some(0), Some(0))
    else if !(tokSpan.0 >= span.start && tokSpan.1 <= span.start + span.length - 1) then (Some(0), Some(0))
    else (Some(tokSpan.0 - span.start + queryLength + 2), Some(tokSpan.1 - span.start + queryLength + 2))
  }

  /**
   * When a possible answer lies inside the window, the feature's tokens at its
   * positions are exactly the answer's sub-tokens.
   */
  lemma AnswerInFeature(w: Windows, k: nat, tokSpan: (int, int), isImpossible: bool)
    requires WindowsOk(w) && k < |w.spans| && !isImpossible
    requires w.spans[k].start <= tokSpan.0 <= tokSpan.1 + 1 && tokSpan.1 <= w.spans[k].start + w.spans[k].length - 1
    ensures var r := AnswerPositions(true, isImpossible, tokSpan, w.spans[k], |w.query|);
            var tokens := FeatureTokens(w.query, w.allDocTokens, w.spans[k]);
            r.0.Some? && r.1.Some? && 0 <= r.0.value <= r.1.value + 1 <= |tokens| &&
            tokens[r.0.value..r.1.value + 1] == w.allDocTokens[tokSpan.0..tokSpan.1 + 1]
  {
    var span := w.spans[k];
    var tokens := FeatureTokens(w.query, w.allDocTokens, span);
    var docOffset := |w.query| + 2;
    var window := w.allDocTokens[span.start..span.start + span.length];
    assert tokens[docOffset..|tokens| - 1] == window;
    var a, b := tokSpan.0 - span.start, tokSpan.1 + 1 - span.start;
    var inFeature, answer := tokens[docOffset + a..docOffset + b], w.allDocTokens[tokSpan.0..tokSpan.1 + 1];
    forall j | 0 <= j < b - a
      ensures inFeature[j] == answer[j]
    {
      assert inFeature[j] == tokens[docOffset..|tokens| - 1][a + j];
      assert window[a + j] == w.allDocTokens[tokSpan.0 + j];
    }
    assert inFeature == answer;
  }

  /**
   * An impossible question, or an answer not wholly inside the window, is labelled
   * with both positions on the feature's `[CLS]` token.
   */
  lemma NoAnswerAtCls(w: Windows, k: nat, tokSpan: (int, int), isImpossible: bool)
    requires WindowsOk(w) && k < |w.spans|
    requires isImpossible || tokSpan.0 < w.spans[k].start || tokSpan.1 > w.spans[k].start + w.spans[k].length - 1
    ensures var r := AnswerPositions(true, isImpossible, tokSpan, w.spans[k], |w.query|);
            var tokens := FeatureTokens(w.query, w.allDocTokens, w.spans[k]);
            r == (Some(0), Some(0)) && tokens[r.0.value] == CLS && tokens[r.1.value] == CLS
  {
  }

  /**
   * The answer's sub-token span for a trainable example: the start word's first
   * sub-token to the end word's last, with errors where Python indexing or a missing
   * answer would raise.
   */
  function TokenAnswerSpan(example: SquadExample, origToTok: seq<nat>, numDocTokens: nat)
    : (r: Result<(int, int), ConvertError>)
    ensures r.Ok? <==> example.startPosition.Some? && example.endPosition.Some? && example.origAnswerText.Some? &&
                       AnswerTokenSpan(origToTok, numDocTokens, example.startPosition.value, example.endPosition.value).Some?
    ensures r.Ok? ==> Some(r.value) == AnswerTokenSpan(origToTok, numDocTokens, example.startPosition.value, example.endPosition.value)
    ensures r == Err(IndexOutOfRange) ==>
              example.startPosition.Some? &&
              (PyIndex(origToTok, example.startPosition.value).None? ||
               (example.endPosition.Some? &&
                AnswerTokenSpan(origToTok, numDocTokens, example.startPosition.value, example.endPosition.value).None?))
  {
    match example.startPosition
    case None => Err(MissingAnswer)
    case Some(start) =>
      if PyIndex(origToTok, start).None? then Err(IndexOutOfRange)
      else match example.endPosition
        case None => Err(MissingAnswer)
        case Some(end) =>
          match AnswerTokenSpan(origToTok, numDocTokens, start, end)
          case None => Err(IndexOutOfRange)
          case Some(span) => if example.origAnswerText.None? then Err(MissingAnswer) else Ok(span)
  }

  /** Index of each word's first sub-token. */
  function WordStarts(docTokens: seq<string>, tokenize: Tokenizer): (starts: seq<nat>)
    ensures |starts| == |docTokens|
  {
    seq(|docTokens|, w requires 0 <= w < |docTokens| => |Flatten(Pieces(docTokens[..w], tokenize))|)
  }

  function QueryOf(example: SquadExample, tokenize: Tokenizer, maxQueryLength: int): seq<string>
  {
    TruncateQuery(tokenize(example.questionText), maxQueryLength)
  }

  /** Sub-tokens left for the document in each feature: `[CLS]` and two `[SEP]` take three. */
  function MaxTokensForDoc(example: SquadExample, tokenize: Tokenizer, maxSeqLength: int, maxQueryLength: int): int
  {
    maxSeqLength - |QueryOf(example, tokenize, maxQueryLength)| - 3
  }

  /** The windowing of the example's sub-tokens stops. */
  predicate Converts(example: SquadExample, tokenize: Tokenizer, maxSeqLength: int, docStride: int, maxQueryLength: int)
  {
    WindowingTerminates(|Flatten(Pieces(example.docTokens, tokenize))|,
                        MaxTokensForDoc(example, tokenize, maxSeqLength, maxQueryLength), docStride)
  }

  /** Whether the example needs its answer located: training on an answerable question. */
  predicate Answerable(example: SquadExample, isTraining: bool)
  {
    isTraining && !example.isImpossible
  }

  /** What a feature records besides its tokens: where it comes from and, for training, its answer. */
  datatype Labels = Labels(exampleIndex: nat, firstUniqueId: int, isTraining: bool, isImpossible: bool,
                           tokSpan: (int, int))

  /** The feature for window `k`: its token fields, id, example and answer positions. */
  ghost predicate IsWindowFeature(f: Feature, w: Windows, k: nat, toId: Vocab, labels: Labels)
    requires WindowsOk(w) && k < |w.spans|
  {
    IsAssembled(f, w, k, toId) && f.uniqueId == labels.firstUniqueId + k &&
    f.exampleIndex == labels.exampleIndex && f.isImpossible == labels.isImpossible &&
    (f.startPosition, f.endPosition)
      == AnswerPositions(labels.isTraining, labels.isImpossible, labels.tokSpan, w.spans[k], |w.query|)
  }

  /** Real features of one example, with consecutive ids from `firstUniqueId`. */
  predicate Numbered(features: seq<Feature>, exampleIndex: nat, firstUniqueId: int)
  {
    forall k :: 0 <= k < |features| ==>
      features[k].InputFeatures? && features[k].uniqueId == firstUniqueId + k && features[k].exampleIndex == exampleIndex
  }

  /** `features` are the features of the first windows, in order. */
  ghost predicate WindowFeaturesSoFar(features: seq<Feature>, w: Windows, toId: Vocab, labels: Labels)
    requires WindowsOk(w)
  {
    |features| <= |w.spans| &&
    forall k :: 0 <= k < |features| ==> IsWindowFeature(features[k], w, k, toId, labels)
  }

  lemma WindowFeaturesSnoc(features: seq<Feature>, f: Feature, w: Windows, toId: Vocab, labels: Labels)
    requires WindowsOk(w) && WindowFeaturesSoFar(features, w, toId, labels) && |features| < |w.spans|
    requires IsWindowFeature(f, w, |features|, toId, labels)
    ensures WindowFeaturesSoFar(features + [f], w, toId, labels)
  {
    forall k | 0 <= k < |features| + 1
      ensures IsWindowFeature((features + [f])[k], w, k, toId, labels)
    {
      if k < |features| {
        assert (features + [f])[k] == features[k];
      }
    }
  }

  /** The features of one window each, ids from `labels.firstUniqueId` on. */
  method WindowFeatures(w: Windows, toId: Vocab, labels: Labels) returns (features: seq<Feature>)
    requires WindowsOk(w)
    ensures |features| == |w.spans|
    ensures WindowFeaturesSoFar(features, w, toId, labels)
    ensures Numbered(features, labels.exampleIndex, labels.firstUniqueId)
  {
    features := [];
    for k := 0 to |w.spans|
      invariant |features| == k
      invariant WindowFeaturesSoFar(features, w, toId, labels)
      invariant Numbered(features, labels.exampleIndex, labels.firstUniqueId)
    {
      var positions := AnswerPositions(labels.isTraining, labels.isImpossible, labels.tokSpan, w.spans[k], |w.query|);
      var f := AssembleFeature(w, k, toId, labels.firstUniqueId + k, labels.exampleIndex, positions, labels.isImpossible);
      WindowFeaturesSnoc(features, f, w, toId, labels);
      features := features + [f];
    }
  }

  /**
   * `features` are what one example converts to: its question truncated, its words
   * expanded to sub-tokens and mapped both ways, the answer located among them for
   * training, the windows laid out over the sub-tokens, and one feature per window.
   */
  ghost predicate Converted(example: SquadExample, exampleIndex: nat, firstUniqueId: int, tokenize: Tokenizer,
                            toId: Vocab, maxSeqLength: int, docStride: int, maxQueryLength: int, isTraining: bool,
                            features: seq<Feature>, w: Windows, tokSpan: (int, int))
  {
    w.query == QueryOf(example, tokenize, maxQueryLength) &&
    w.allDocTokens == Flatten(Pieces(example.docTokens, tokenize)) &&
    w.maxSeqLength == maxSeqLength && WindowsOk(w) &&
    (forall v :: 0 <= v < |example.docTokens| ==>
       MapsWord(example.docTokens, tokenize, w.tokToOrig, WordStarts(example.docTokens, tokenize), w.allDocTokens, v)) &&
    IsWindowing(w.spans, |w.allDocTokens|, MaxTokensForDoc(example, tokenize, maxSeqLength, maxQueryLength), docStride) &&
    (Answerable(example, isTraining) ==>
       var initial := TokenAnswerSpan(example, WordStarts(example.docTokens, tokenize), |w.allDocTokens|);
       initial.Ok? &&
       var answer := Join(tokenize(example.origAnswerText.value), " ");
       (FirstMatch(w.allDocTokens, initial.value.0, initial.value.1, answer, tokSpan.0, tokSpan.1) ||
        (NoMatchIn(w.allDocTokens, initial.value.0, initial.value.1, answer) && tokSpan == initial.value))) &&
    |features| == |w.spans| &&
    WindowFeaturesSoFar(features, w, toId, Labels(exampleIndex, firstUniqueId, isTraining, example.isImpossible, tokSpan)) &&
    Numbered(features, exampleIndex, firstUniqueId)
  }

  /** Why a training example cannot be converted: its answer does not carry over to sub-tokens. */
  function ConvertFailure(example: SquadExample, tokenize: Tokenizer, isTraining: bool): Option<ConvertError>
  {
    if !Answerable(example, isTraining) then None
    else match TokenAnswerSpan(example, WordStarts(example.docTokens, tokenize), |Flatten(Pieces(example.docTokens, tokenize))|)
      case Ok(_) => None
      case Err(e) => Some(e)
  }

  /** None of the first `n` examples fails to convert. */
  predicate NoFailureBefore(examples: seq<SquadExample>, tokenize: Tokenizer, isTraining: bool, n: nat)
    requires n <= |examples|
  {
    forall j :: 0 <= j < n ==> ConvertFailure(examples[j], tokenize, isTraining).None?
  }
}
