/**
 * Layout descriptors of a pretraining sample record: the width of each field of
 * a flat record, and the exclusive upper bound that synthetic data draws each
 * field from. The unpacked record has seven fields: three of the sequence length,
 * then one, one, the mask-token count and one; the packed record has ten.
 */
module Layout {
  import opened Common

  /** Field widths of an unpacked record. */
  function DataFileFormat(sequenceLength: nat, maskTokens: nat): (widths: seq<nat>)
    ensures |widths| == 7
    ensures forall i :: 0 <= i < 3 ==> widths[i] == sequenceLength
    ensures widths[3] == 1 && widths[4] == 1 && widths[6] == 1
    ensures widths[5] == maskTokens
    ensures Sum(widths) == 3 * sequenceLength + maskTokens + 3
  {
    var w := [sequenceLength, sequenceLength, sequenceLength, 1, 1, maskTokens, 1];
    assert w[..0] == [] && w[..7] == w;
    SumPrefix(w, 0); SumPrefix(w, 1); SumPrefix(w, 2); SumPrefix(w, 3);
    SumPrefix(w, 4); SumPrefix(w, 5); SumPrefix(w, 6);
    w
  }

  /** Exclusive upper bounds of each unpacked field, index for index with DataFileFormat. */
  function DataRanges(sequenceLength: nat, maskTokens: nat, vocabLength: nat): (ranges: seq<nat>)
    ensures |ranges| == |DataFileFormat(sequenceLength, maskTokens)|
    ensures ranges[0] == vocabLength && ranges[5] == vocabLength
    ensures ranges[1] == sequenceLength && ranges[2] == 2 && ranges[6] == 3
    ensures ranges[3] == maskTokens + 1 && ranges[4] == sequenceLength + 1
  {
    [vocabLength, sequenceLength, 2, maskTokens + 1, sequenceLength + 1, vocabLength, 3]
  }

  /** Field widths of a packed record: four sequence fields, three masked-lm fields, three pack fields. */
  function PackedDataFileFormat(sequenceLength: nat, maskTokens: nat, maxSequencesPerPack: nat): (widths: seq<nat>)
    ensures |widths| == 10
    ensures forall i :: 0 <= i < 4 ==> widths[i] == sequenceLength
    ensures forall i :: 4 <= i < 7 ==> widths[i] == maskTokens + maxSequencesPerPack
    ensures forall i :: 7 <= i < 10 ==> widths[i] == maxSequencesPerPack
    ensures Sum(widths) == 4 * sequenceLength + 3 * (maskTokens + maxSequencesPerPack) + 3 * maxSequencesPerPack
  {
    var m := maskTokens + maxSequencesPerPack;
    var w := [sequenceLength, sequenceLength, sequenceLength, sequenceLength,
              m, m, m,
              maxSequencesPerPack, maxSequencesPerPack, maxSequencesPerPack];
    assert w[..0] == [] && w[..10] == w;
    SumPrefix(w, 0); SumPrefix(w, 1); SumPrefix(w, 2); SumPrefix(w, 3); SumPrefix(w, 4);
    SumPrefix(w, 5); SumPrefix(w, 6); SumPrefix(w, 7); SumPrefix(w, 8); SumPrefix(w, 9);
    w
  }

  /**
   * Exclusive upper bounds for the packed fields. The pairing with
   * PackedDataFileFormat is by index, exactly as the source lists them, even where
   * a field's range does not obviously match its width (index 1 is an input mask
   * of sequenceLength values drawn below maxSequencesPerPack).
   */
  function PackedDataRanges(sequenceLength: nat, maskTokens: nat, vocabLength: nat, maxSequencesPerPack: nat): (ranges: seq<nat>)
    ensures |ranges| == |PackedDataFileFormat(sequenceLength, maskTokens, maxSequencesPerPack)|
    ensures ranges[0] == vocabLength && ranges[5] == vocabLength
    ensures ranges[1] == maxSequencesPerPack && ranges[6] == maxSequencesPerPack
    ensures ranges[2] == 2 && ranges[8] == 1 && ranges[9] == 1
    ensures ranges[3] == sequenceLength && ranges[4] == sequenceLength && ranges[7] == sequenceLength
  {
    [vocabLength, maxSequencesPerPack, 2, sequenceLength, sequenceLength,
     vocabLength, maxSequencesPerPack, sequenceLength, 1, 1]
  }

  /** The record used by the unit tests: sequence length 20, two mask tokens. */
  lemma UnpackedExample()
    ensures DataFileFormat(20, 2) == [20, 20, 20, 1, 1, 2, 1]
    ensures Sum(DataFileFormat(20, 2)) == 65
  {
  }
}
