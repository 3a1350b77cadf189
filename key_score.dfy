/** The key similarity scorer (SimilarityScoreKey). A key is categorised by
    its tonic's clockwise steps on the circle of fifths from A, doubled, plus
    one for a minor mode; silence is category 24. Two keys are scored by a
    2 x 12 table read at (same mode or not, circle-of-fifths distance from the
    reference tonic to the test tonic); a minor reference reads the table
    mirrored. */
module KeyScore {
  import opened Music

  const SilenceIndex: nat := 24
  const NumKeyLabels: nat := 25

  /** Tonic and mode as the scorer reads them; silence is read as tonic A,
      not major. */
  function TonicOf(k: Key): Chroma
  {
    if k.Key? then k.tonic else FirstChroma
  }

  predicate IsMajor(k: Key)
  {
    k.Key? && k.mode.Major?
  }

  /** Category of a key (SimilarityScoreKey.cpp:87-96). */
  function KeyIndex(k: Key): (i: nat)
    ensures i < NumKeyLabels
    ensures i == SilenceIndex <==> k.SilentKey?
  {
    if k.SilentKey? then SilenceIndex
    else 2 * CircleStepsCW(FirstChroma, k.tonic) + (if IsMajor(k) then 0 else 1)
  }

  /** The mode of the labels: major for even categories, natural minor for
      odd ones. */
  function LabelMode(i: nat): Mode
  {
    if i % 2 == 0 then Major else NaturalMinor
  }

  /** The key each category stands for (SimilarityScoreKey.cpp:48-54). */
  function KeyLabels(): (labels: seq<Key>)
    ensures |labels| == NumKeyLabels && labels[SilenceIndex] == SilentKey
    ensures forall i :: 0 <= i < SilenceIndex ==> labels[i].Key? && labels[i].mode == LabelMode(i)
  {
    seq(NumKeyLabels, i requires 0 <= i < NumKeyLabels =>
      if i < SilenceIndex then Key(CircleOfFifths(FirstChroma)[i / 2], LabelMode(i)) else SilentKey)
  }

  /** The label a key is read as: its tonic with the major or natural minor
      mode, according to whether its own mode is major. */
  function TableKey(k: Key): Key
  {
    if k.SilentKey? then SilentKey else Key(k.tonic, if IsMajor(k) then Major else NaturalMinor)
  }

  /** Every category's label has that category. */
  lemma LabelIndexRoundTrip(i: nat)
    requires i < NumKeyLabels
    ensures KeyIndex(KeyLabels()[i]) == i
  {
    if i < SilenceIndex {
      var cs := CircleOfFifths(FirstChroma);
      assert CircleStepsCW(FirstChroma, cs[i / 2]) == i / 2;
      assert 2 * (i / 2) + (if i % 2 == 0 then 0 else 1) == i;
    }
  }

  /** The label of a key's category has the key's tonic and is major exactly
      when the key is; a major or natural minor key is itself that label, so
      those keys and the categories are in one-to-one correspondence. */
  lemma IndexLabelRoundTrip(k: Key)
    ensures KeyLabels()[KeyIndex(k)] == TableKey(k)
    ensures k.SilentKey? || k.mode == Major || k.mode == NaturalMinor ==> KeyLabels()[KeyIndex(k)] == k
  {
    if k.Key? {
      var cs := CircleOfFifths(FirstChroma);
      var d := CircleStepsCW(FirstChroma, k.tonic);
      var i := KeyIndex(k);
      assert i / 2 == d && (i % 2 == 0) == IsMajor(k);
      assert cs[d] == k.tonic by {
        assert CircleStepsCW(FirstChroma, cs[d]) == d;
      }
      assert KeyLabels()[i] == Key(cs[i / 2], LabelMode(i));
    }
  }

  /** Two keys share a category exactly when both are silence, or both have
      the same tonic and are both major or both not major. */
  lemma SameKeyIndex(a: Key, b: Key)
    ensures KeyIndex(a) == KeyIndex(b) <==>
              (a.SilentKey? && b.SilentKey?)
              || (a.Key? && b.Key? && a.tonic == b.tonic && IsMajor(a) == IsMajor(b))
  {
    if a.Key? && b.Key? {
      var da, db := CircleStepsCW(FirstChroma, a.tonic), CircleStepsCW(FirstChroma, b.tonic);
      if KeyIndex(a) == KeyIndex(b) {
        assert da == db && IsMajor(a) == IsMajor(b);
        assert a.tonic == Advance(FirstChroma, da) == b.tonic;
      }
    }
  }

  // ------------------------------------------------------------ score tables

  /** Row 0: same mode, row 1: other mode; column: circle-of-fifths steps. */
  type ScoreTable = seq<seq<real>>

  /** SimilarityScoreKey.cpp:24-26. */
  function MirexTable(): (t: ScoreTable)
    ensures |t| == 2 && |t[0]| == 12 && |t[1]| == 12
  {
    [[1.0, 0.5, 0.0, 0.0, 0.0, 0.0, 0.0, 0.0, 0.0, 0.0, 0.0, 0.5],
     [0.2, 0.0, 0.0, 0.3, 0.0, 0.0, 0.0, 0.0, 0.0, 0.0, 0.0, 0.0]]
  }

  /** SimilarityScoreKey.cpp:30-32. */
  function BinaryTable(): (t: ScoreTable)
    ensures |t| == 2 && |t[0]| == 12 && |t[1]| == 12
  {
    [[1.0, 0.0, 0.0, 0.0, 0.0, 0.0, 0.0, 0.0, 0.0, 0.0, 0.0, 0.0],
     [0.0, 0.0, 0.0, 0.0, 0.0, 0.0, 0.0, 0.0, 0.0, 0.0, 0.0, 0.0]]
  }

  /** The table a preset name selects; other names are an error
      (SimilarityScoreKey.cpp:22-45). */
  function KeyPreset(preset: string): (r: Result<ScoreTable>)
    requires preset != "Lerdahl"
    ensures r.Ok? <==> preset == "Mirex" || preset == "Binary"
    ensures r.Ok? ==> |r.value| == 2 && |r.value[0]| == 12 && |r.value[1]| == 12
  {
    if preset == "Mirex" then Ok(MirexTable())
    else if preset == "Binary" then Ok(BinaryTable())
    else Err("Unknown score selector '" + preset + "'")
  }

  /** The distance d read counterclockwise, as a minor reference reads the
      table. */
  function Mirrored(d: int): (e: int)
    requires 0 <= d < 12
    ensures e == if d == 0 then 0 else 12 - d
  {
    (12 - d) % 12
  }

  /** The score of a test key against a reference key
      (SimilarityScoreKey.cpp:62-85): 0 when exactly one is silence, otherwise
      the table entry at the mode match and the clockwise distance, mirrored
      for a minor reference. */
  function ScoreOf(table: ScoreTable, ref: Key, test: Key): real
    requires |table| == 2 && |table[0]| == 12 && |table[1]| == 12
  {
    if (KeyIndex(ref) == SilenceIndex || KeyIndex(test) == SilenceIndex) && KeyIndex(ref) != KeyIndex(test) then 0.0
    else
      var d := CircleStepsCW(TonicOf(ref), TonicOf(test));
      if IsMajor(ref) then table[if IsMajor(test) then 0 else 1][d]
      else table[if IsMajor(test) then 1 else 0][Mirrored(d)]
  }

  // ------------------------------------------------------------- properties

  /** Silence against a key, or a key against silence, scores 0 whatever the
      table. */
  lemma SilenceAgainstKey(table: ScoreTable, ref: Key, test: Key)
    requires |table| == 2 && |table[0]| == 12 && |table[1]| == 12 && ref.SilentKey? != test.SilentKey?
    ensures ScoreOf(table, ref, test) == 0.0
  {
  }

  /** Silence against silence reads the table's same-key entry. */
  lemma SilenceAgainstSilence(table: ScoreTable)
    requires |table| == 2 && |table[0]| == 12 && |table[1]| == 12
    ensures ScoreOf(table, SilentKey, SilentKey) == table[0][0]
  {
  }

  /** Under the binary preset a key scores 1 exactly when it falls in the
      reference key's category (same tonic, both major or both not major),
      and 0 otherwise; in particular the reference key itself scores 1. */
  lemma BinaryScore(ref: Key, test: Key)
    ensures ScoreOf(BinaryTable(), ref, test) == if KeyIndex(ref) == KeyIndex(test) then 1.0 else 0.0
    ensures ref == test ==> ScoreOf(BinaryTable(), ref, test) == 1.0
  {
    SameKeyIndex(ref, test);
    if ref.Key? && test.Key? {
      var d := CircleStepsCW(ref.tonic, test.tonic);
      assert d == 0 <==> ref.tonic == test.tonic;
    }
  }

  /** Same mode, tonics one step apart on the circle of fifths. */
  predicate IsFifthNeighbour(ref: Key, test: Key)
    requires ref.Key? && test.Key?
  {
    IsMajor(ref) == IsMajor(test)
    && (CircleStepsCW(ref.tonic, test.tonic) == 1 || CircleStepsCW(ref.tonic, test.tonic) == 11)
  }

  /** The relative key: a major key and the minor key three steps clockwise
      from it, in either role. */
  predicate IsRelative(ref: Key, test: Key)
    requires ref.Key? && test.Key?
  {
    (IsMajor(ref) && !IsMajor(test) && CircleStepsCW(ref.tonic, test.tonic) == 3)
    || (!IsMajor(ref) && IsMajor(test) && CircleStepsCW(ref.tonic, test.tonic) == 9)
  }

  /** The parallel key: same tonic, other mode. */
  predicate IsParallel(ref: Key, test: Key)
    requires ref.Key? && test.Key?
  {
    ref.tonic == test.tonic && IsMajor(ref) != IsMajor(test)
  }

  /** The same key as far as the scorer can tell: same tonic, both major or
      both not major. */
  predicate IsSameKey(ref: Key, test: Key)
    requires ref.Key? && test.Key?
  {
    ref.tonic == test.tonic && IsMajor(ref) == IsMajor(test)
  }

  /** The MIREX key score by musical relation. */
  function MirexRelation(ref: Key, test: Key): real
    requires ref.Key? && test.Key?
  {
    if IsSameKey(ref, test) then 1.0
    else if IsFifthNeighbour(ref, test) then 0.5
    else if IsRelative(ref, test) then 0.3
    else if IsParallel(ref, test) then 0.2
    else 0.0
  }

  lemma MirexSameMode(d: int)
    requires 0 <= d < 12
    ensures MirexTable()[0][d] == if d == 0 then 1.0 else if d == 1 || d == 11 then 0.5 else 0.0
  {
  }

  lemma MirexOtherMode(d: int)
    requires 0 <= d < 12
    ensures MirexTable()[1][d] == if d == 0 then 0.2 else if d == 3 then 0.3 else 0.0
  {
  }

  /** Under the MIREX preset: 1 for the same key, 0.5 for a neighbour on the
      circle of fifths in the same mode, 0.3 for the relative key, 0.2 for
      the parallel key and 0 otherwise; silence against silence scores 1. */
  lemma MirexScore(ref: Key, test: Key)
    ensures ref.Key? && test.Key? ==> ScoreOf(MirexTable(), ref, test) == MirexRelation(ref, test)
    ensures ref.SilentKey? && test.SilentKey? ==> ScoreOf(MirexTable(), ref, test) == 1.0
  {
    if ref.Key? && test.Key? {
      var d := CircleStepsCW(ref.tonic, test.tonic);
      MirexSameMode(d);
      MirexOtherMode(d);
      MirexSameMode(Mirrored(d));
      MirexOtherMode(Mirrored(d));
    }
  }

  // ------------------------------------------------------------------ scorer

  /** The key scorer: a table fixed at construction, the label of every
      category, and the categories of the last pair scored. */
  class SimilarityScoreKey {
    const scoreMatrix: ScoreTable
    const labels: seq<Key>
    var refIndex: nat
    var testIndex: nat

    /** SimilarityScoreKey.cpp:20-55, once the preset has chosen the table:
        the labels are filled in category order, silence last. */
    constructor(table: ScoreTable)
      requires |table| == 2 && |table[0]| == 12 && |table[1]| == 12
      ensures scoreMatrix == table && labels == KeyLabels()
      ensures refIndex == 0 && testIndex == 0
    {
      var ls := new Key[NumKeyLabels](_ => SilentKey);
      for i := 0 to SilenceIndex
        invariant forall j :: 0 <= j < i ==> ls[j] == KeyLabels()[j]
        invariant ls[SilenceIndex] == SilentKey
      {
        ls[i] := Key(CircleOfFifths(FirstChroma)[i / 2], LabelMode(i));
      }
      ls[SilenceIndex] := SilentKey;
      scoreMatrix := table;
      labels := ls[..];
      refIndex, testIndex := 0, 0;
    }

    /** Records both categories, then scores (SimilarityScoreKey.cpp:62-85). */
    method Score(ref: Key, test: Key) returns (score: real)
      requires |scoreMatrix| == 2 && |scoreMatrix[0]| == 12 && |scoreMatrix[1]| == 12
      modifies this
      ensures refIndex == KeyIndex(ref) && testIndex == KeyIndex(test)
      ensures score == ScoreOf(scoreMatrix, ref, test)
    {
      var r, t := KeyIndex(ref), KeyIndex(test);
      refIndex, testIndex := r, t;
      if (r == SilenceIndex || t == SilenceIndex) && r != t {
        return 0.0;
      }
      var distance := CircleStepsCW(TonicOf(ref), TonicOf(test));
      var row := if IsMajor(ref) == IsMajor(test) then 0 else 1;
      if IsMajor(ref) {
        score := scoreMatrix[row][distance];
      } else {
        score := scoreMatrix[row][Mirrored(distance)];
      }
    }
  }

  /** Builds a scorer for a preset name; an unknown name is an error. */
  method NewSimilarityScoreKey(preset: string) returns (r: Result<SimilarityScoreKey>)
    requires preset != "Lerdahl"
    ensures r.Ok? <==> preset == "Mirex" || preset == "Binary"
    ensures r.Ok? ==> fresh(r.value) && r.value.scoreMatrix == KeyPreset(preset).value
                      && r.value.labels == KeyLabels()
  {
    var table := KeyPreset(preset);
    if table.Err? {
      return Err(table.message);
    }
    var scorer := new SimilarityScoreKey(table.value);
    r := Ok(scorer);
  }
}
