/**
 * The sliding window over a document's sub-tokens: spans of at most
 * `maxTokensForDoc` tokens, each starting `docStride` (or the previous length, if
 * shorter) after the previous one, until the document end is reached; and, for a
 * token covered by several spans, the choice of the one span that gives it the
 * most context.
 */
module DocSpans {

  datatype DocSpan = DocSpan(start: nat, length: nat)

  function Min(a: int, b: int): int
  {
    if a <= b then a else b
  }

  /** A window at `span.start` over `n` tokens: as many tokens as remain, at most `maxTokensForDoc`. */
  predicate IsWindow(span: DocSpan, n: nat, maxTokensForDoc: int)
  {
    1 <= span.length <= maxTokensForDoc && span.start + span.length <= n &&
    span.length == Min(n - span.start, maxTokensForDoc)
  }

  /** `next` follows `span`, which does not reach the end, by the stride or the span's length if shorter. */
  predicate Follows(span: DocSpan, next: DocSpan, n: nat, docStride: int)
  {
    span.start + span.length < n && next.start == span.start + Min(span.length, docStride)
  }

  /** The spans tile the document from 0 to `n` as the sliding window lays them out. */
  predicate IsWindowing(spans: seq<DocSpan>, n: nat, maxTokensForDoc: int, docStride: int)
  {
    (n == 0 <==> spans == []) &&
    (spans != [] ==> spans[0].start == 0 && spans[|spans| - 1].start + spans[|spans| - 1].length == n) &&
    (forall k :: 0 <= k < |spans| ==> IsWindow(spans[k], n, maxTokensForDoc)) &&
    (forall k :: 0 <= k < |spans| - 1 ==> Follows(spans[k], spans[k + 1], n, docStride))
  }

  /**
   * The sliding window ends: there is nothing to cover, one window covers it all, or
   * each window is non-empty and the offset advances. Otherwise the offset never
   * moves forward and the window loop does not stop.
   */
  predicate WindowingTerminates(n: nat, maxTokensForDoc: int, docStride: int)
  {
    n == 0 || n <= maxTokensForDoc || (maxTokensForDoc > 0 && docStride > 0)
  }

  /**
   * The windows over `n` tokens: a window of up to `maxTokensForDoc` tokens at each
   * offset, the offset advancing by `docStride` or the window length if shorter,
   * stopping once a window reaches the end.
   */
  method MakeDocSpans(n: nat, maxTokensForDoc: int, docStride: int) returns (spans: seq<DocSpan>)
    requires WindowingTerminates(n, maxTokensForDoc, docStride)
    ensures IsWindowing(spans, n, maxTokensForDoc, docStride)
  {
    spans := [];
    var startOffset: nat := 0;
    while startOffset < n
      invariant spans == [] <==> startOffset == 0
      invariant spans != [] ==> spans[0].start == 0
      invariant spans != [] ==> Follows(spans[|spans| - 1], DocSpan(startOffset, 0), n, docStride)
      invariant forall k :: 0 <= k < |spans| ==> IsWindow(spans[k], n, maxTokensForDoc)
      invariant forall k :: 0 <= k < |spans| - 1 ==> Follows(spans[k], spans[k + 1], n, docStride)
      decreases n - startOffset
    {
      var length: int := n - startOffset;
      if length > maxTokensForDoc {
        length := maxTokensForDoc;
      }
      spans := spans + [DocSpan(startOffset, length)];
      if startOffset + length == n {
        break;
      }
      startOffset := startOffset + Min(length, docStride);
    }
  }

  predicate Covers(span: DocSpan, position: int)
  {
    span.start <= position < span.start + span.length
  }

  /** Every token of the document lies in some window. */
  lemma {:induction false} WindowsCover(spans: seq<DocSpan>, n: nat, maxTokensForDoc: int, docStride: int, position: nat)
    requires IsWindowing(spans, n, maxTokensForDoc, docStride) && position < n
    ensures exists k :: 0 <= k < |spans| && Covers(spans[k], position)
  {
    var k := 0;
    while spans[k].start + spans[k].length <= position
      invariant 0 <= k < |spans| && spans[k].start <= position
      decreases |spans| - k
    {
      k := k + 1;
    }
    assert Covers(spans[k], position);
  }

  /**
   * Context score of a span for a token: the smaller of its left and right context,
   * ties going to the longer span. `100 * min + length` orders spans as
   * `min + 0.01 * length` does.
   */
  function Score(span: DocSpan, position: int): int
  {
    100 * Min(position - span.start, span.start + span.length - 1 - position) + span.length
  }

  /** The score as written with a fractional length bonus, in exact arithmetic. */
  function FractionalScore(span: DocSpan, position: int): real
  {
    Min(position - span.start, span.start + span.length - 1 - position) as real + 0.01 * span.length as real
  }

  /** The integer score ranks spans exactly as the fractional one does. */
  lemma ScoreOrder(a: DocSpan, b: DocSpan, position: int)
    ensures Score(a, position) < Score(b, position) <==> FractionalScore(a, position) < FractionalScore(b, position)
    ensures Score(a, position) == Score(b, position) <==> FractionalScore(a, position) == FractionalScore(b, position)
  {
    assert FractionalScore(a, position) == Score(a, position) as real / 100.0;
    assert FractionalScore(b, position) == Score(b, position) as real / 100.0;
  }

  /**
   * Span `k` is the first of the first `n` spans to reach the highest score among
   * those covering `position`.
   */
  predicate IsBestAmong(spans: seq<DocSpan>, n: nat, position: int, k: nat)
    requires n <= |spans|
  {
    k < n && Covers(spans[k], position) &&
    (forall j :: 0 <= j < n && Covers(spans[j], position) ==> Score(spans[j], position) <= Score(spans[k], position)) &&
    (forall j :: 0 <= j < k && Covers(spans[j], position) ==> Score(spans[j], position) < Score(spans[k], position))
  }

  predicate IsMaxContext(spans: seq<DocSpan>, position: int, k: nat)
  {
    IsBestAmong(spans, |spans|, position, k)
  }

  /** Whether span `cur` is the span that gives `position` its maximum context. */
  method CheckIsMaxContext(spans: seq<DocSpan>, cur: nat, position: int) returns (r: bool)
    ensures r <==> IsMaxContext(spans, position, cur)
    ensures r ==> cur < |spans| && Covers(spans[cur], position)
  {
    var bestScore: int := 0;
    var bestSpanIndex: int := -1;
    for spanIndex := 0 to |spans|
      invariant bestSpanIndex == -1 <==> forall j :: 0 <= j < spanIndex ==> !Covers(spans[j], position)
      invariant bestSpanIndex != -1 ==>
                  0 <= bestSpanIndex && IsBestAmong(spans, spanIndex, position, bestSpanIndex) &&
                  bestScore == Score(spans[bestSpanIndex], position)
    {
      var span := spans[spanIndex];
      var end := span.start + span.length - 1;
      if position < span.start {
        continue;
      }
      if position > end {
        continue;
      }
      var numLeftContext := position - span.start;
      var numRightContext := end - position;
      var score := 100 * Min(numLeftContext, numRightContext) + span.length;
      if bestSpanIndex == -1 || score > bestScore {
        bestScore := score;
        bestSpanIndex := spanIndex;
      }
    }
    r := cur == bestSpanIndex;
    if !r && IsMaxContext(spans, position, cur) {
      MaxContextUnique(spans, position, cur, bestSpanIndex);
    }
  }

  /** At most one span is the maximum-context span of a token. */
  lemma MaxContextUnique(spans: seq<DocSpan>, position: int, k: nat, m: nat)
    requires IsMaxContext(spans, position, k) && IsMaxContext(spans, position, m)
    ensures k == m
  {
  }

  /** A token covered by some span has a maximum-context span. */
  lemma {:induction false} MaxContextExists(spans: seq<DocSpan>, position: int, n: nat)
    requires n <= |spans| && exists j :: 0 <= j < n && Covers(spans[j], position)
    ensures exists k: nat :: IsBestAmong(spans, n, position, k)
    decreases n
  {
    var last := n - 1;
    if exists j :: 0 <= j < last && Covers(spans[j], position) {
      MaxContextExists(spans, position, last);
      var k: nat :| IsBestAmong(spans, last, position, k);
      if Covers(spans[last], position) && Score(spans[last], position) > Score(spans[k], position) {
        assert IsBestAmong(spans, n, position, last);
      } else {
        assert IsBestAmong(spans, n, position, k);
      }
    } else {
      assert IsBestAmong(spans, n, position, last);
    }
  }

  /** Every token of a windowed document has exactly one maximum-context span. */
  lemma ExactlyOneMaxContext(spans: seq<DocSpan>, n: nat, maxTokensForDoc: int, docStride: int, position: nat)
    requires IsWindowing(spans, n, maxTokensForDoc, docStride) && position < n
    ensures exists k: nat :: IsMaxContext(spans, position, k)
    ensures forall k: nat, m: nat :: IsMaxContext(spans, position, k) && IsMaxContext(spans, position, m) ==> k == m
  {
    WindowsCover(spans, n, maxTokensForDoc, docStride, position);
    MaxContextExists(spans, position, |spans|);
    var best: nat :| IsBestAmong(spans, |spans|, position, best);
    assert IsMaxContext(spans, position, best);
    forall k: nat, m: nat | IsMaxContext(spans, position, k) && IsMaxContext(spans, position, m) ensures k == m {
      MaxContextUnique(spans, position, k, m);
    }
  }
}
