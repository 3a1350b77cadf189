/** The note similarity scorer (SimilarityScoreNote). The only preset is the
    piano: 88 keys from MIDI note 21, plus silence as the last category. A
    note's category is its MIDI number minus 21, stored unsigned, and two
    notes score 1 when their categories are equal and 0 otherwise. */
module NoteScore {
  import opened Music

  const PianoLowestNote: int := 21
  const PianoNumLabels: nat := 89

  /** size_t arithmetic: values are taken modulo 2^64. */
  const SizeModulus: int := 0x1_0000_0000_0000_0000

  function ToSize(x: int): (r: nat)
    ensures r < SizeModulus
    ensures 0 <= x < SizeModulus ==> r == x
  {
    x % SizeModulus
  }

  /** The settings a preset name selects: number of labels and lowest MIDI
      note (SimilarityScoreNote.cpp:21-29); other names are an error. */
  function NotePreset(preset: string): (r: Result<(nat, int)>)
    ensures r.Ok? <==> preset == "Piano"
    ensures r.Ok? ==> r.value == (PianoNumLabels, PianoLowestNote)
  {
    if preset == "Piano" then Ok((PianoNumLabels, PianoLowestNote))
    else Err("Unknown score selector: " + preset)
  }

  /** Category of a note: its MIDI number minus the lowest note, as size_t
      (SimilarityScoreNote.cpp:45-46). */
  function NoteIndex(n: Note): (i: nat)
    ensures PianoLowestNote <= MidiNumber(n) < PianoLowestNote + SizeModulus ==> i == MidiNumber(n) - PianoLowestNote
  {
    ToSize(MidiNumber(n) - PianoLowestNote)
  }

  /** The note each category stands for: the piano keys upwards, then
      silence (SimilarityScoreNote.cpp:30-35). */
  function NoteLabels(): (labels: seq<Note>)
    ensures |labels| == PianoNumLabels && labels[PianoNumLabels - 1] == SilentNote
    ensures forall i :: 0 <= i < PianoNumLabels - 1 ==> labels[i] == Pitched(PianoLowestNote + i)
  {
    seq(PianoNumLabels, i requires 0 <= i < PianoNumLabels =>
      if i + 1 < PianoNumLabels then Pitched(PianoLowestNote + i) else SilentNote)
  }

  /** Every category's label has that category; silence lands in the last
      one. */
  lemma LabelIndexRoundTrip(i: nat)
    requires i < PianoNumLabels
    ensures NoteIndex(NoteLabels()[i]) == i
  {
  }

  /** Two notes in the range a size_t index can tell apart share a category
      exactly when they have the same MIDI number. */
  lemma SameIndexSameMidi(a: Note, b: Note)
    requires PianoLowestNote <= MidiNumber(a) < PianoLowestNote + SizeModulus
    requires PianoLowestNote <= MidiNumber(b) < PianoLowestNote + SizeModulus
    ensures NoteIndex(a) == NoteIndex(b) <==> MidiNumber(a) == MidiNumber(b)
  {
  }

  /** Notes below the lowest piano key wrap around to huge categories: a note
      k steps below MIDI note 21 gets category 2^64 - k (MIDI note 20 gets
      2^64 - 1), beyond the label table unless k comes within 89 of 2^64. */
  lemma BelowPianoWraps(n: Note)
    requires PianoLowestNote - SizeModulus <= MidiNumber(n) < PianoLowestNote
    ensures NoteIndex(n) == SizeModulus + MidiNumber(n) - PianoLowestNote
    ensures MidiNumber(n) >= PianoLowestNote + PianoNumLabels - SizeModulus ==> NoteIndex(n) >= PianoNumLabels
  {
    var x := MidiNumber(n) - PianoLowestNote;
    assert -SizeModulus <= x < 0;
    assert x % SizeModulus == x + SizeModulus;
  }

  /** The note scorer: the labels fixed at construction and the categories
      of the last pair scored. */
  class SimilarityScoreNote {
    const numOfLabels: nat
    const lowestNote: int
    const labels: seq<Note>
    var refIndex: nat
    var testIndex: nat

    /** SimilarityScoreNote.cpp:19-36 for the piano preset. */
    constructor()
      ensures numOfLabels == PianoNumLabels && lowestNote == PianoLowestNote
      ensures labels == NoteLabels()
      ensures refIndex == 0 && testIndex == 0
    {
      var ls := new Note[PianoNumLabels](_ => SilentNote);
      for i := 0 to PianoNumLabels - 1
        invariant forall j :: 0 <= j < i ==> ls[j] == NoteLabels()[j]
        invariant ls[PianoNumLabels - 1] == SilentNote
      {
        ls[i] := Pitched(PianoLowestNote + i);
      }
      ls[PianoNumLabels - 1] := SilentNote;
      numOfLabels := PianoNumLabels;
      lowestNote := PianoLowestNote;
      labels := ls[..];
      refIndex, testIndex := 0, 0;
    }

    /** Records both categories and scores 1 exactly when they are equal,
        otherwise 0 (SimilarityScoreNote.cpp:43-56). */
    method Score(ref: Note, test: Note) returns (score: real)
      requires lowestNote == PianoLowestNote
      modifies this
      ensures refIndex == NoteIndex(ref) && testIndex == NoteIndex(test)
      ensures score == 0.0 || score == 1.0
      ensures score == 1.0 <==> NoteIndex(ref) == NoteIndex(test)
    {
      refIndex := ToSize(MidiNumber(ref) - lowestNote);
      testIndex := ToSize(MidiNumber(test) - lowestNote);
      if refIndex == testIndex {
        score := 1.0;
      } else {
        score := 0.0;
      }
    }
  }

  /** Builds a scorer for a preset name; anything but "Piano" is an error. */
  method NewSimilarityScoreNote(preset: string) returns (r: Result<SimilarityScoreNote>)
    ensures r.Ok? <==> preset == "Piano"
    ensures r.Ok? ==> fresh(r.value) && r.value.labels == NoteLabels() && r.value.lowestNote == PianoLowestNote
  {
    var settings := NotePreset(preset);
    if settings.Err? {
      return Err(settings.message);
    }
    var scorer := new SimilarityScoreNote();
    r := Ok(scorer);
  }
}
