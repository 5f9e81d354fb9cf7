/**
 * Paragraph splitting for SQuAD: a paragraph is cut into whitespace-separated
 * words, and every character is mapped to the index of the word it belongs to (or
 * the last word before it, for whitespace). Answers given as character offsets are
 * mapped to word positions through that map.
 */
module SquadText {
  import opened Common

  /** Space, tab, carriage return, line feed and the narrow no-break space U+202F. */
  predicate IsWhitespace(c: char)
  {
    c == ' ' || c == '\t' || c == '\r' || c == '\n' || c as int == 0x202F
  }

  predicate NoWhitespace(s: string)
  {
    forall i :: 0 <= i < |s| ==> !IsWhitespace(s[i])
  }

  /** Length of the run of non-whitespace characters `s` starts with. */
  function RunLength(s: string): (n: nat)
    ensures n <= |s| && NoWhitespace(s[..n])
    ensures n < |s| ==> IsWhitespace(s[n])
  {
    if s == [] || IsWhitespace(s[0]) then 0
    else
      var n := 1 + RunLength(s[1..]);
      assert forall i :: 1 <= i < n ==> s[..n][i] == s[1..][..n - 1][i - 1];
      n
  }

  /** The whitespace-separated words of `s`, front to back. */
  function Words(s: string): (words: seq<string>)
    decreases |s|
  {
    if s == [] then []
    else if IsWhitespace(s[0]) then Words(s[1..])
    else
      var n := RunLength(s);
      [s[..n]] + Words(s[n..])
  }

  /** Every word is non-empty and holds no whitespace. */
  lemma {:induction false} WordsShape(s: string)
    ensures forall k :: 0 <= k < |Words(s)| ==> Words(s)[k] != [] && NoWhitespace(Words(s)[k])
    decreases |s|
  {
    if s == [] {
    } else if IsWhitespace(s[0]) {
      WordsShape(s[1..]);
    } else {
      var n := RunLength(s);
      WordsShape(s[n..]);
      var rest := Words(s[n..]);
      assert Words(s) == [s[..n]] + rest;
      forall k | 0 <= k < |Words(s)| ensures Words(s)[k] != [] && NoWhitespace(Words(s)[k]) {
        if k > 0 {
          assert Words(s)[k] == rest[k - 1];
        }
      }
    }
  }

  /** Appending a character to a run that fills the whole string extends the run. */
  lemma {:induction false} RunLengthSnoc(p: string, c: char)
    ensures RunLength(p) < |p| ==> RunLength(p + [c]) == RunLength(p)
    ensures RunLength(p) == |p| && IsWhitespace(c) ==> RunLength(p + [c]) == |p|
    ensures RunLength(p) == |p| && !IsWhitespace(c) ==> RunLength(p + [c]) == |p| + 1
    decreases |p|
  {
    var s := p + [c];
    if p == [] {
    } else if IsWhitespace(p[0]) {
      assert s[0] == p[0];
    } else {
      assert s[0] == p[0];
      assert s[1..] == p[1..] + [c];
      RunLengthSnoc(p[1..], c);
    }
  }

  /**
   * How the words change when one character is appended: whitespace changes
   * nothing; a character after whitespace (or at the start) opens a word; any other
   * character extends the last word.
   */
  predicate SnocWords(p: string, c: char)
  {
    (IsWhitespace(c) ==> Words(p + [c]) == Words(p)) &&
    (!IsWhitespace(c) && (p == [] || IsWhitespace(p[|p| - 1])) ==> Words(p + [c]) == Words(p) + [[c]]) &&
    (!IsWhitespace(c) && p != [] && !IsWhitespace(p[|p| - 1]) ==>
       Words(p) != [] && Words(p + [c]) == Words(p)[..|Words(p)| - 1] + [Words(p)[|Words(p)| - 1] + [c]])
  }

  lemma {:induction false} WordsSnoc(p: string, c: char)
    ensures SnocWords(p, c)
    decreases |p|, 1
  {
    if p == [] {
      WordsOfOneChar(c);
      assert p + [c] == [c];
    } else if IsWhitespace(p[0]) {
      WordsSnocSkip(p, c);
    } else if RunLength(p) < |p| {
      WordsSnocRun(p, c);
    } else {
      WordsSnocWhole(p, c);
    }
  }

  /** Leading whitespace: the words are those of the rest. */
  lemma {:induction false} WordsSnocSkip(p: string, c: char)
    requires p != [] && IsWhitespace(p[0])
    ensures SnocWords(p, c)
    decreases |p|, 0
  {
    var s := p + [c];
    assert s[0] == p[0] && s[1..] == p[1..] + [c];
    WordsSnoc(p[1..], c);
    if |p| == 1 {
      assert p[1..] == [];
    } else {
      assert p[1..][|p[1..]| - 1] == p[|p| - 1];
    }
  }

  /** A leading word that ends before the string does: the first word stays, the rest changes. */
  lemma {:induction false} WordsSnocRun(p: string, c: char)
    requires p != [] && !IsWhitespace(p[0]) && RunLength(p) < |p|
    ensures SnocWords(p, c)
    decreases |p|, 0
  {
    var s := p + [c];
    assert s[0] == p[0];
    var n := RunLength(p);
    RunLengthSnoc(p, c);
    assert Words(p) == [p[..n]] + Words(p[n..]);
    assert s[..n] == p[..n];
    assert s[n..] == p[n..] + [c];
    WordsSnoc(p[n..], c);
    assert p[n..][|p[n..]| - 1] == p[|p| - 1];
    var rest := Words(p[n..]);
    if !IsWhitespace(c) && !IsWhitespace(p[|p| - 1]) {
      assert rest != [];
      assert ([p[..n]] + rest)[..|rest|] == [p[..n]] + rest[..|rest| - 1];
    }
  }

  /** The words of a one-character string. */
  lemma WordsOfOneChar(c: char)
    ensures IsWhitespace(c) ==> Words([c]) == []
    ensures !IsWhitespace(c) ==> Words([c]) == [[c]]
  {
    var s := [c];
    if !IsWhitespace(c) {
      assert s[1..] == [] && s[..1] == [c];
      assert RunLength(s) == 1 + RunLength(s[1..]) == 1;
      assert Words(s) == [s[..1]] + Words(s[1..]);
    } else {
      assert Words(s) == Words(s[1..]);
      assert s[1..] == [];
    }
  }

  /** Appending to a string that is a single word: whitespace ends it, anything else extends it. */
  lemma WordsSnocWhole(p: string, c: char)
    requires p != [] && !IsWhitespace(p[0]) && RunLength(p) == |p|
    ensures IsWhitespace(c) ==> Words(p + [c]) == Words(p) == [p]
    ensures !IsWhitespace(c) ==> Words(p) == [p] && Words(p + [c]) == [p + [c]]
  {
    var s, n := p + [c], |p|;
    RunLengthSnoc(p, c);
    assert s[0] == p[0];
    assert p[n..] == [] && p[..n] == p;
    assert Words(p) == [p[..n]] + Words(p[n..]);
    if IsWhitespace(c) {
      assert s[..n] == p && s[n..] == [c];
      WordsOfOneChar(c);
      assert Words(s) == [s[..n]] + Words(s[n..]);
    } else {
      assert s[..n + 1] == s && s[n + 1..] == [];
      assert Words(s) == [s[..n + 1]] + Words(s[n + 1..]);
    }
  }

  /** Appending a character adds at most one word. */
  lemma WordCountSnoc(p: string, c: char)
    ensures |Words(p)| <= |Words(p + [c])| <= |Words(p)| + 1
  {
    WordsSnoc(p, c);
  }

  /**
   * The paragraph's words, and for each character the index of the word it is in
   * (for whitespace, of the last word before it; -1 before the first word).
   */
  method SplitParagraph(text: string) returns (docTokens: seq<string>, charToWordOffset: seq<int>)
    ensures docTokens == Words(text)
    ensures |charToWordOffset| == |text|
    ensures forall i :: 0 <= i < |text| ==> charToWordOffset[i] == |Words(text[..i + 1])| - 1
    ensures forall k :: 0 <= k < |docTokens| ==> docTokens[k] != [] && NoWhitespace(docTokens[k])
    ensures forall i, j :: 0 <= i <= j < |text| ==> -1 <= charToWordOffset[i] <= charToWordOffset[j] <= |docTokens| - 1
  {
    docTokens := [];
    charToWordOffset := [];
    var prevIsWhitespace := true;
    for i := 0 to |text|
      invariant docTokens == Words(text[..i])
      invariant prevIsWhitespace <==> i == 0 || IsWhitespace(text[i - 1])
      invariant |charToWordOffset| == i
      invariant forall k :: 0 <= k < i ==> charToWordOffset[k] == |Words(text[..k + 1])| - 1
    {
      var c := text[i];
      assert text[..i + 1] == text[..i] + [c];
      WordsSnoc(text[..i], c);
      if IsWhitespace(c) {
        prevIsWhitespace := true;
      } else {
        if prevIsWhitespace {
          docTokens := docTokens + [[c]];
        } else {
          docTokens := docTokens[|docTokens| - 1 := docTokens[|docTokens| - 1] + [c]];
        }
        prevIsWhitespace := false;
      }
      charToWordOffset := charToWordOffset + [|docTokens| - 1];
    }
    assert text[..|text|] == text;
    WordsShape(text);
    forall i, j | 0 <= i <= j < |text|
      ensures -1 <= charToWordOffset[i] <= charToWordOffset[j] <= |docTokens| - 1
    {
      OffsetsMonotone(text, i, j);
    }
  }

  /** The character-to-word map is non-decreasing and stays within [-1, words - 1]. */
  lemma {:induction false} OffsetsMonotone(text: string, i: nat, j: nat)
    requires i <= j < |text|
    ensures -1 <= |Words(text[..i + 1])| - 1 <= |Words(text[..j + 1])| - 1 <= |Words(text)| - 1
    decreases |text| - i
  {
    if i + 1 < |text| {
      assert text[..i + 2] == text[..i + 1] + [text[i + 1]];
      WordCountSnoc(text[..i + 1], text[i + 1]);
      if i < j {
        OffsetsMonotone(text, i + 1, j);
      } else {
        OffsetsMonotone(text, j + 1, j + 1);
      }
    } else {
      assert text[..i + 1] == text;
    }
  }

  /** Word index of every character: the offsets SplitParagraph computes. */
  function Offsets(text: string): (offsets: seq<int>)
    ensures |offsets| == |text|
  {
    seq(|text|, i requires 0 <= i < |text| => |Words(text[..i + 1])| - 1)
  }

  /** `ws` is where `longer` stands after more characters: same words, the last one perhaps longer. */
  predicate GrowsInto(ws: seq<string>, longer: seq<string>)
  {
    |ws| <= |longer| &&
    (forall k :: 0 <= k < |ws| - 1 ==> ws[k] == longer[k]) &&
    (|ws| > 0 ==> ws[|ws| - 1] <= longer[|ws| - 1])
  }

  /** The words of a prefix grow into the words of the whole text. */
  lemma {:induction false} WordsGrow(text: string, i: nat)
    requires i <= |text|
    ensures GrowsInto(Words(text[..i]), Words(text))
    decreases |text| - i
  {
    if i == |text| {
      assert text[..i] == text;
    } else {
      var p, c := text[..i], text[i];
      assert text[..i + 1] == p + [c];
      WordsSnoc(p, c);
      WordsGrow(text, i + 1);
      var a, b, w := Words(p), Words(p + [c]), Words(text);
      if |a| > 0 && |b| == |a| && !IsWhitespace(c) {
        assert a[|a| - 1] <= b[|a| - 1];
      }
    }
  }

  /** A word character just appended is the last character of the last word. */
  lemma LastWordEndsWith(p: string, c: char)
    requires !IsWhitespace(c)
    ensures Words(p + [c]) != []
    ensures var b := Words(p + [c]); b[|b| - 1] != [] && b[|b| - 1][|b[|b| - 1]| - 1] == c
  {
    WordsSnoc(p, c);
  }

  /** A non-whitespace character lies in the word its offset names. */
  lemma CharInItsWord(text: string, i: nat)
    requires i < |text| && !IsWhitespace(text[i])
    ensures 0 <= Offsets(text)[i] < |Words(text)|
    ensures text[i] in Words(text)[Offsets(text)[i]]
  {
    var prefix := text[..i + 1];
    assert prefix == text[..i] + [text[i]];
    LastWordEndsWith(text[..i], text[i]);
    var b := Words(prefix);
    var last := b[|b| - 1];
    assert Offsets(text)[i] == |b| - 1;
    WordsGrow(text, i + 1);
    var w := Words(text)[|b| - 1];
    assert last <= w;
    assert w[|last| - 1] == last[|last| - 1];
  }

  // ---------------------------------------------------------------------------
  // Answer mapping

  /** Python list indexing: a negative index counts from the end; anything else outside raises IndexError. */
  function PyIndex<T>(s: seq<T>, k: int): (r: Option<T>)
    ensures r.Some? <==> -|s| <= k < |s|
    ensures 0 <= k < |s| ==> r == Some(s[k])
    ensures -|s| <= k < 0 ==> r == Some(s[|s| + k])
  {
    if 0 <= k < |s| then Some(s[k]) else if -|s| <= k < 0 then Some(s[|s| + k]) else None
  }

  /** Python slice bound: negative counts from the end, then clamped to [0, |s|]. */
  function SliceBound(len: nat, k: int): (b: nat)
    ensures b <= len
    ensures 0 <= k <= len ==> b == k
  {
    if k < 0 then (if len + k < 0 then 0 else len + k) else if k > len then len else k
  }

  /** `s[lo:hi]` with Python's bounds. */
  function PySlice<T>(s: seq<T>, lo: int, hi: int): (r: seq<T>)
    ensures 0 <= lo <= hi <= |s| ==> r == s[lo..hi]
  {
    var a, b := SliceBound(|s|, lo), SliceBound(|s|, hi);
    if a <= b then s[a..b] else []
  }

  /** `sep.join(parts)`. */
  function Join(parts: seq<string>, sep: string): string
  {
    if parts == [] then [] else if |parts| == 1 then parts[0] else Join(parts[..|parts| - 1], sep) + sep + parts[|parts| - 1]
  }

  /** `needle` occurs in `hay` starting at index `i`. */
  predicate OccursAt(hay: string, needle: string, i: int)
  {
    0 <= i && i + |needle| <= |hay| && hay[i..i + |needle|] == needle
  }

  /** `hay.find(needle) != -1`. */
  predicate Contains(hay: string, needle: string)
  {
    exists i :: 0 <= i <= |hay| && OccursAt(hay, needle, i)
  }

  datatype Answer = Answer(text: string, answerStart: int)
  datatype Qa = Qa(id: string, question: string, answers: seq<Answer>, isImpossible: bool)

  /** One question about a paragraph; positions are word indices into `docTokens`. */
  datatype SquadExample = SquadExample(
    qasId: string,
    questionText: string,
    docTokens: seq<string>,
    origAnswerText: Option<string>,
    startPosition: Option<int>,
    endPosition: Option<int>,
    isImpossible: bool)

  datatype ReadError =
    | NotOneAnswer(qasId: string)   // ValueError: a trainable question without exactly one answer
    | OffsetOutOfRange              // IndexError: answer offset outside the paragraph

  /**
   * The example a question yields, if any. For training, an answerable question must
   * have exactly one answer; its character span is mapped to words, and the question
   * is dropped when the cleaned answer text does not occur in those words.
   * `cleanTokens` is the whitespace tokenizer the answer text is cleaned with.
   */
  function ExampleOf(qa: Qa, docTokens: seq<string>, offsets: seq<int>, isTraining: bool, version2: bool,
                     cleanTokens: string -> seq<string>): (r: Result<Option<SquadExample>, ReadError>)
    ensures r.Err? <==> isTraining && !(version2 && qa.isImpossible) &&
                        (|qa.answers| != 1 ||
                         PyIndex(offsets, qa.answers[0].answerStart).None? ||
                         PyIndex(offsets, qa.answers[0].answerStart + |qa.answers[0].text| - 1).None?)
    ensures r.Err? && |qa.answers| != 1 ==> r.error == NotOneAnswer(qa.id)
    ensures r.Ok? && r.value.Some? ==> r.value.value.docTokens == docTokens && r.value.value.qasId == qa.id
    ensures !isTraining ==> r == Ok(Some(SquadExample(qa.id, qa.question, docTokens, None, None, None, false)))
    ensures isTraining && version2 && qa.isImpossible ==>
              r == Ok(Some(SquadExample(qa.id, qa.question, docTokens, Some(""), Some(-1), Some(-1), true)))
    ensures r.Ok? && r.value.Some? && isTraining && !r.value.value.isImpossible ==>
              var a := qa.answers[0];
              r.value.value.origAnswerText == Some(a.text) &&
              r.value.value.startPosition == PyIndex(offsets, a.answerStart) &&
              r.value.value.endPosition == PyIndex(offsets, a.answerStart + |a.text| - 1) &&
              r.value.value.startPosition.Some? && r.value.value.endPosition.Some? &&
              Contains(Join(PySlice(docTokens, r.value.value.startPosition.value, r.value.value.endPosition.value + 1), " "),
                       Join(cleanTokens(a.text), " "))
  {
    if !isTraining then
      Ok(Some(SquadExample(qa.id, qa.question, docTokens, None, None, None, false)))
    else
      var impossible := version2 && qa.isImpossible;
      if |qa.answers| != 1 && !impossible then Err(NotOneAnswer(qa.id))
      else if impossible then Ok(Some(SquadExample(qa.id, qa.question, docTokens, Some(""), Some(-1), Some(-1), true)))
      else
        var a := qa.answers[0];
        match PyIndex(offsets, a.answerStart)
        case None => Err(OffsetOutOfRange)
        case Some(start) =>
          match PyIndex(offsets, a.answerStart + |a.text| - 1)
          case None => Err(OffsetOutOfRange)
          case Some(end) =>
            var actual := Join(PySlice(docTokens, start, end + 1), " ");
            if !Contains(actual, Join(cleanTokens(a.text), " ")) then Ok(None)
            else Ok(Some(SquadExample(qa.id, qa.question, docTokens, Some(a.text), Some(start), Some(end), false)))
  }

  /** An in-range answer that starts on a word character starts in the word its start position names. */
  lemma AnswerStartsInItsWord(text: string, qa: Qa, version2: bool, cleanTokens: string -> seq<string>)
    requires |qa.answers| == 1 && 0 <= qa.answers[0].answerStart < |text|
    requires !IsWhitespace(text[qa.answers[0].answerStart])
    requires ExampleOf(qa, Words(text), Offsets(text), true, version2, cleanTokens).Ok?
    requires ExampleOf(qa, Words(text), Offsets(text), true, version2, cleanTokens).value.Some?
    requires !(version2 && qa.isImpossible)
    ensures var e := ExampleOf(qa, Words(text), Offsets(text), true, version2, cleanTokens).value.value;
            0 <= e.startPosition.value < |Words(text)| &&
            text[qa.answers[0].answerStart] in Words(text)[e.startPosition.value]
  {
    CharInItsWord(text, qa.answers[0].answerStart);
  }

  /** The examples of a paragraph's questions, in order; the first error aborts. */
  function ReadQas(qas: seq<Qa>, docTokens: seq<string>, offsets: seq<int>, isTraining: bool, version2: bool,
                   cleanTokens: string -> seq<string>): (r: Result<seq<SquadExample>, ReadError>)
    ensures r.Ok? <==> forall j :: 0 <= j < |qas| ==> ExampleOf(qas[j], docTokens, offsets, isTraining, version2, cleanTokens).Ok?
    ensures r.Ok? ==> |r.value| <= |qas|
    ensures r.Ok? ==> forall e :: e in r.value ==> e.docTokens == docTokens
    decreases |qas|
  {
    if qas == [] then Ok([])
    else
      var init := qas[..|qas| - 1];
      match ReadQas(init, docTokens, offsets, isTraining, version2, cleanTokens)
      case Err(e) => Err(e)
      case Ok(examples) =>
        match ExampleOf(qas[|qas| - 1], docTokens, offsets, isTraining, version2, cleanTokens)
        case Err(e) => Err(e)
        case Ok(None) => Ok(examples)
        case Ok(Some(x)) => Ok(examples + [x])
  }

  /**
   * One paragraph of the input: split into words, then every question turned into
   * an example through the character-to-word map.
   */
  method ReadParagraph(context: string, qas: seq<Qa>, isTraining: bool, version2: bool,
                       cleanTokens: string -> seq<string>) returns (r: Result<seq<SquadExample>, ReadError>)
    ensures r == ReadQas(qas, Words(context), Offsets(context), isTraining, version2, cleanTokens)
  {
    var docTokens, offsets := SplitParagraph(context);
    assert offsets == Offsets(context);
    var examples: seq<SquadExample> := [];
    for j := 0 to |qas|
      invariant ReadQas(qas[..j], docTokens, offsets, isTraining, version2, cleanTokens) == Ok(examples)
    {
      assert qas[..j + 1][..j] == qas[..j];
      var e := ExampleOf(qas[j], docTokens, offsets, isTraining, version2, cleanTokens);
      if e.Err? {
        assert ReadQas(qas[..j + 1], docTokens, offsets, isTraining, version2, cleanTokens) == Err(e.error);
        ReadQasAbort(qas, j + 1, docTokens, offsets, isTraining, version2, cleanTokens);
        return Err(e.error);
      }
      if e.value.Some? {
        examples := examples + [e.value.value];
      }
    }
    assert qas[..|qas|] == qas;
    r := Ok(examples);
  }

  /** Once a prefix of the questions fails, the whole paragraph fails with the same error. */
  lemma {:induction false} ReadQasAbort(qas: seq<Qa>, j: nat, docTokens: seq<string>, offsets: seq<int>, isTraining: bool,
                                        version2: bool, cleanTokens: string -> seq<string>)
    requires j <= |qas| && ReadQas(qas[..j], docTokens, offsets, isTraining, version2, cleanTokens).Err?
    ensures ReadQas(qas, docTokens, offsets, isTraining, version2, cleanTokens) ==
            ReadQas(qas[..j], docTokens, offsets, isTraining, version2, cleanTokens)
    decreases |qas| - j
  {
    if j == |qas| {
      assert qas[..j] == qas;
    } else {
      assert qas[..j + 1][..j] == qas[..j];
      ReadQasAbort(qas, j + 1, docTokens, offsets, isTraining, version2, cleanTokens);
    }
  }
}
