/**
 * From words to sub-tokens: the question truncated to its token budget, every
 * document word expanded by the tokenizer with maps between word and sub-token
 * indices, the answer's word span carried over to sub-tokens, and the search for a
 * tighter sub-token span that spells the answer exactly.
 */
module TokenMaps {
  import opened Common
  import opened SquadText

  /** A word's sub-tokens; the tokenizer itself is not part of this model. */
  type Tokenizer = string -> seq<string>

  /** `tokens[0:maxQueryLength]` when there are more tokens than that. */
  function TruncateQuery(tokens: seq<string>, maxQueryLength: int): (query: seq<string>)
    ensures maxQueryLength >= 0 ==> query == tokens[..Min(|tokens|, maxQueryLength)]
    ensures |tokens| <= maxQueryLength ==> query == tokens
  {
    if |tokens| > maxQueryLength then PySlice(tokens, 0, maxQueryLength) else tokens
  }

  function Min(a: int, b: int): int
  {
    if a <= b then a else b
  }

  /** The sub-tokens of each word. */
  function Pieces(words: seq<string>, tokenize: Tokenizer): (pieces: seq<seq<string>>)
    ensures |pieces| == |words| && forall i :: 0 <= i < |words| ==> pieces[i] == tokenize(words[i])
  {
    seq(|words|, i requires 0 <= i < |words| => tokenize(words[i]))
  }

  lemma PiecesSnoc(words: seq<string>, i: nat, tokenize: Tokenizer)
    requires i < |words|
    ensures Pieces(words[..i + 1], tokenize) == Pieces(words[..i], tokenize) + [tokenize(words[i])]
  {
  }

  /** Word `w`'s sub-tokens sit at `origToTok[w]` onwards, and map back to `w`. */
  predicate MapsWord(docTokens: seq<string>, tokenize: Tokenizer, tokToOrig: seq<nat>, origToTok: seq<nat>,
                     allDocTokens: seq<string>, w: nat)
    requires w < |docTokens| && w < |origToTok|
  {
    var pieces := tokenize(docTokens[w]);
    origToTok[w] + |pieces| <= |allDocTokens| && origToTok[w] + |pieces| <= |tokToOrig| &&
    forall j :: 0 <= j < |pieces| ==> allDocTokens[origToTok[w] + j] == pieces[j] && tokToOrig[origToTok[w] + j] == w
  }

  /** Appending to all three lists keeps what the maps say about earlier words. */
  lemma MapsWordGrows(docTokens: seq<string>, tokenize: Tokenizer, tokToOrig: seq<nat>, origToTok: seq<nat>,
                      allDocTokens: seq<string>, w: nat, moreTokToOrig: seq<nat>, moreOrigToTok: seq<nat>, moreDoc: seq<string>)
    requires w < |docTokens| && w < |origToTok|
    requires MapsWord(docTokens, tokenize, tokToOrig, origToTok, allDocTokens, w)
    ensures MapsWord(docTokens, tokenize, tokToOrig + moreTokToOrig, origToTok + moreOrigToTok, allDocTokens + moreDoc, w)
  {
  }

  /** Appends one word's sub-tokens, each mapped back to word `w`. */
  method AppendPieces(tokToOrig: seq<nat>, allDocTokens: seq<string>, subTokens: seq<string>, w: nat)
    returns (tokToOrig': seq<nat>, allDocTokens': seq<string>)
    ensures allDocTokens' == allDocTokens + subTokens
    ensures tokToOrig' == tokToOrig + seq(|subTokens|, _ => w)
  {
    tokToOrig', allDocTokens' := tokToOrig, allDocTokens;
    for j := 0 to |subTokens|
      invariant allDocTokens' == allDocTokens + subTokens[..j]
      invariant tokToOrig' == tokToOrig + seq(j, _ => w)
    {
      assert subTokens[..j + 1] == subTokens[..j] + [subTokens[j]];
      tokToOrig' := tokToOrig' + [w];
      allDocTokens' := allDocTokens' + [subTokens[j]];
    }
    assert subTokens[..|subTokens|] == subTokens;
  }

  /** The maps as built for the first `i` words. */
  predicate BuiltUpTo(docTokens: seq<string>, tokenize: Tokenizer, tokToOrig: seq<nat>, origToTok: seq<nat>,
                      allDocTokens: seq<string>, i: nat)
    requires i <= |docTokens|
  {
    allDocTokens == Flatten(Pieces(docTokens[..i], tokenize)) &&
    |tokToOrig| == |allDocTokens| && |origToTok| == i &&
    (forall w :: 0 <= w < i ==> origToTok[w] == |Flatten(Pieces(docTokens[..w], tokenize))|) &&
    (forall w :: 0 <= w < i ==> MapsWord(docTokens, tokenize, tokToOrig, origToTok, allDocTokens, w)) &&
    (forall t :: 0 <= t < |tokToOrig| ==> tokToOrig[t] < i) &&
    (forall t, u :: 0 <= t <= u < |tokToOrig| ==> tokToOrig[t] <= tokToOrig[u])
  }

  /** Word indices in `tokToOrig` stay below `i` and non-decreasing when word `i`'s entries are appended. */
  lemma WordIndicesStep(tokToOrig: seq<nat>, i: nat, count: nat, extended: seq<nat>)
    requires forall t :: 0 <= t < |tokToOrig| ==> tokToOrig[t] < i
    requires forall t, u :: 0 <= t <= u < |tokToOrig| ==> tokToOrig[t] <= tokToOrig[u]
    requires extended == tokToOrig + seq(count, _ => i)
    ensures forall t :: 0 <= t < |extended| ==> extended[t] < i + 1
    ensures forall t, u :: 0 <= t <= u < |extended| ==> extended[t] <= extended[u]
  {
  }

  /** Appending word `i`'s sub-tokens extends the maps from `i` words to `i + 1`. */
  lemma BuiltStep(docTokens: seq<string>, tokenize: Tokenizer, tokToOrig: seq<nat>, origToTok: seq<nat>,
                  allDocTokens: seq<string>, i: nat)
    requires i < |docTokens| && BuiltUpTo(docTokens, tokenize, tokToOrig, origToTok, allDocTokens, i)
    ensures var pieces := tokenize(docTokens[i]);
            BuiltUpTo(docTokens, tokenize, tokToOrig + seq(|pieces|, _ => i), origToTok + [|allDocTokens|],
                      allDocTokens + pieces, i + 1)
  {
    var pieces := tokenize(docTokens[i]);
    var tokToOrig', origToTok', allDocTokens' := tokToOrig + seq(|pieces|, _ => i), origToTok + [|allDocTokens|], allDocTokens + pieces;
    forall w | 0 <= w < i
      ensures MapsWord(docTokens, tokenize, tokToOrig', origToTok', allDocTokens', w)
    {
      MapsWordGrows(docTokens, tokenize, tokToOrig, origToTok, allDocTokens, w, seq(|pieces|, _ => i), [|allDocTokens|], pieces);
    }
    assert MapsWord(docTokens, tokenize, tokToOrig', origToTok', allDocTokens', i);
    PiecesSnoc(docTokens, i, tokenize);
    assert docTokens[..i + 1][..i] == docTokens[..i];
    WordIndicesStep(tokToOrig, i, |pieces|, tokToOrig');
  }

  /**
   * Every word expanded into its sub-tokens, with `origToTok[w]` the index of word
   * `w`'s first sub-token and `tokToOrig[t]` the word sub-token `t` came from.
   */
  method BuildTokenMaps(docTokens: seq<string>, tokenize: Tokenizer)
    returns (tokToOrig: seq<nat>, origToTok: seq<nat>, allDocTokens: seq<string>)
    ensures allDocTokens == Flatten(Pieces(docTokens, tokenize))
    ensures |tokToOrig| == |allDocTokens| && |origToTok| == |docTokens|
    ensures forall w :: 0 <= w < |docTokens| ==> origToTok[w] == |Flatten(Pieces(docTokens[..w], tokenize))|
    ensures forall w :: 0 <= w < |docTokens| ==> MapsWord(docTokens, tokenize, tokToOrig, origToTok, allDocTokens, w)
    ensures forall t :: 0 <= t < |tokToOrig| ==> tokToOrig[t] < |docTokens|
    ensures forall t, u :: 0 <= t <= u < |tokToOrig| ==> tokToOrig[t] <= tokToOrig[u]
  {
    tokToOrig, origToTok, allDocTokens := [], [], [];
    for i := 0 to |docTokens|
      invariant BuiltUpTo(docTokens, tokenize, tokToOrig, origToTok, allDocTokens, i)
    {
      var subTokens := tokenize(docTokens[i]);
      BuiltStep(docTokens, tokenize, tokToOrig, origToTok, allDocTokens, i);
      origToTok := origToTok + [|allDocTokens|];
      tokToOrig, allDocTokens := AppendPieces(tokToOrig, allDocTokens, subTokens, i);
    }
    assert docTokens[..|docTokens|] == docTokens;
  }

  /**
   * The answer's word span carried to sub-tokens: from the first sub-token of the
   * start word to the last sub-token of the end word. Indices follow Python's list
   * indexing; `None` is the IndexError an index outside the list raises.
   */
  function AnswerTokenSpan(origToTok: seq<nat>, numDocTokens: nat, startPosition: int, endPosition: int)
    : (r: Option<(int, int)>)
    ensures 0 <= startPosition < |origToTok| && -1 <= endPosition < |origToTok| ==> r.Some?
    ensures r.Some? && 0 <= startPosition < |origToTok| ==> r.value.0 == origToTok[startPosition]
    ensures r.Some? && -1 <= endPosition < |origToTok| - 1 ==> r.value.1 == origToTok[endPosition + 1] as int - 1
    ensures r.Some? && endPosition >= |origToTok| - 1 ==> r.value.1 == numDocTokens as int - 1
  {
    match PyIndex(origToTok, startPosition)
    case None => None
    case Some(tokStart) =>
      if endPosition < |origToTok| - 1 then
        match PyIndex(origToTok, endPosition + 1)
        case None => None
        case Some(next) => Some((tokStart as int, next as int - 1))
      else Some((tokStart as int, numDocTokens as int - 1))
  }

  /** The sub-tokens `s..e`, joined by spaces, spell `text`. */
  predicate Matches(docTokens: seq<string>, s: int, e: int, text: string)
  {
    Join(PySlice(docTokens, s, e + 1), " ") == text
  }

  predicate NoMatchIn(docTokens: seq<string>, lo: int, hi: int, text: string)
  {
    forall s, e :: lo <= s <= e <= hi ==> !Matches(docTokens, s, e, text)
  }

  /** `(s, e)` is the match inside `[lo, hi]` with the smallest start, and the largest end for that start. */
  predicate FirstMatch(docTokens: seq<string>, lo: int, hi: int, text: string, s: int, e: int)
  {
    lo <= s <= e <= hi && Matches(docTokens, s, e, text) &&
    (forall s', e' :: lo <= s' < s && s' <= e' <= hi ==> !Matches(docTokens, s', e', text)) &&
    (forall e' :: e < e' <= hi ==> !Matches(docTokens, s, e', text))
  }

  /** The first match is one pair: the search result is determined by its inputs. */
  lemma FirstMatchUnique(docTokens: seq<string>, lo: int, hi: int, text: string, s: int, e: int, s2: int, e2: int)
    requires FirstMatch(docTokens, lo, hi, text, s, e) && FirstMatch(docTokens, lo, hi, text, s2, e2)
    ensures s == s2 && e == e2
  {
  }

  /**
   * A tighter span for an answer: the first sub-token span inside `[inputStart,
   * inputEnd]`, scanning starts upwards and ends downwards, whose tokens spell
   * `tokAnswerText`; the input span when there is none.
   */
  method ImproveAnswerSpan(docTokens: seq<string>, inputStart: int, inputEnd: int, tokAnswerText: string)
    returns (s: int, e: int)
    ensures FirstMatch(docTokens, inputStart, inputEnd, tokAnswerText, s, e) ||
            (NoMatchIn(docTokens, inputStart, inputEnd, tokAnswerText) && s == inputStart && e == inputEnd)
  {
    var newStart := inputStart;
    while newStart < inputEnd + 1
      invariant inputStart <= newStart
      invariant forall s', e' :: inputStart <= s' < newStart && s' <= e' <= inputEnd ==> !Matches(docTokens, s', e', tokAnswerText)
      decreases inputEnd + 1 - newStart
    {
      var newEnd := inputEnd;
      while newEnd > newStart - 1
        invariant newStart - 1 <= newEnd <= inputEnd
        invariant forall e' :: newEnd < e' <= inputEnd ==> !Matches(docTokens, newStart, e', tokAnswerText)
        decreases newEnd - newStart
      {
        var textSpan := Join(PySlice(docTokens, newStart, newEnd + 1), " ");
        if textSpan == tokAnswerText {
          return newStart, newEnd;
        }
        newEnd := newEnd - 1;
      }
      newStart := newStart + 1;
    }
    return inputStart, inputEnd;
  }
}
