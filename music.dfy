/** The parts of the music-domain library (chroma, key, note, chord, timed
    label) that the scoring engine reads, reduced to what it needs: a chroma is
    its position on the circle of fifths counted clockwise from A, a key is a
    tonic with a mode, a note is its MIDI number, and a chord
    type is its position in the library's ordering of chord types. */
module Music {

  datatype Result<T> = Ok(value: T) | Err(message: string)

  /** A label of type L sounding from onset to offset (seconds). */
  datatype TimedLabel<L> = TimedLabel(content: L, onset: real, offset: real)

  // ------------------------------------------------------------------ chroma

  /** A pitch class, as the number of clockwise steps on the circle of fifths
      from A. */
  type Chroma = c: int | 0 <= c < 12

  /** The fixed zero point of every circle-of-fifths index (A). */
  const FirstChroma: Chroma := 0

  /** The chroma d clockwise steps on the circle of fifths from `from`. */
  function Advance(from: Chroma, d: int): Chroma
    requires 0 <= d < 12
  {
    if from + d < 12 then from + d else from + d - 12
  }

  /** Clockwise steps on the circle of fifths from `from` to `to`: the one
      step count below 12 that leads from `from` to `to`. */
  function CircleStepsCW(from: Chroma, to: Chroma): (d: int)
    ensures 0 <= d < 12
    ensures d == 0 <==> from == to
    ensures Advance(from, d) == to
  {
    if from <= to then to - from else to - from + 12
  }

  /** The twelve chromas in circle-of-fifths order, starting at `start`. */
  function CircleOfFifths(start: Chroma): (cs: seq<Chroma>)
    ensures |cs| == 12
    ensures forall i :: 0 <= i < 12 ==> cs[i] == Advance(start, i) && CircleStepsCW(start, cs[i]) == i
  {
    seq(12, i requires 0 <= i < 12 => Advance(start, i))
  }

  // --------------------------------------------------------------------- key

  /** A mode of the library: major, or one of its other modes (natural minor,
      dorian, ...), told apart by an index. The key scorer only asks whether a
      mode is major; comparing keys compares whole modes. */
  datatype Mode = Major | OtherMode(id: nat)

  /** The natural minor mode, the minor mode of the key label table. */
  const NaturalMinor: Mode := OtherMode(0)

  /** A key, or the silence label. */
  datatype Key = SilentKey | Key(tonic: Chroma, mode: Mode)

  // -------------------------------------------------------------------- note

  /** A note, known by its MIDI number, or the silence label. */
  datatype Note = SilentNote | Pitched(midi: int)

  /** MIDI number the library gives to silence: one past the highest piano
      key, the slot the piano label table reserves for it. */
  const SilentMidi: int := 109

  function MidiNumber(n: Note): int
  {
    match n
    case SilentNote => SilentMidi
    case Pitched(k) => k
  }

  // ------------------------------------------------------------------- chord

  /** A chord type, known by its position in the library's strict ordering of
      chord types (the order a std::set of chord types iterates in). */
  datatype ChordType = ChordType(rank: nat)

  const MajorType := ChordType(0)
  const MinorType := ChordType(1)
  const DiminishedType := ChordType(2)
  const AugmentedType := ChordType(3)
  const SuspendedSecondType := ChordType(4)
  const SuspendedFourthType := ChordType(5)
  const MajorFlatFifthType := ChordType(6)
  const MinorSharpFifthType := ChordType(7)
  const AugmentedSeventhType := ChordType(8)
  const AugmentedMajorSeventhType := ChordType(9)
  const MajorFlatFifthSeventhType := ChordType(10)
  const MajorFlatFifthMajorSeventhType := ChordType(11)
  const DominantSeventhType := ChordType(12)
  const MajorSeventhType := ChordType(13)
  const MajorSixthType := ChordType(14)
  const HalfDiminishedType := ChordType(15)
  const DiminishedSeventhType := ChordType(16)
  const MinorSharpFifthSeventhType := ChordType(17)
  const MinorSharpFifthMajorSeventhType := ChordType(18)
  const MinorSeventhType := ChordType(19)
  const MinorMajorSeventhType := ChordType(20)
  const MinorSixthType := ChordType(21)
  const SuspendedFourthSeventhType := ChordType(22)
  const SuspendedFourthMajorSeventhType := ChordType(23)
  const SuspendedFourthSixthType := ChordType(24)
  const SuspendedSecondSeventhType := ChordType(25)
  const SuspendedSecondMajorSeventhType := ChordType(26)
  const SuspendedSecondSixthType := ChordType(27)
  const RootOnlyType := ChordType(28)
  const NoneType := ChordType(29)

  /** A chord (root, type and bass), the "no chord" label, or silence. */
  datatype Chord = SilentChord | NoChord | Chord(root: Chroma, kind: ChordType, bass: Chroma)

  /** The type of a chord; both silence and "no chord" have the none type. */
  function TypeOf(c: Chord): ChordType
  {
    if c.Chord? then c.kind else NoneType
  }

  /** What the chord library provides and the scorer calls, left abstract:
      the type reductions triad(withBass) and tetrad(withBass), the
      inversions of a type, the number of chromas two chords share, whether
      a chord sounds any chromas at all, and a type's number of chromas. */
  datatype ChordLibrary = ChordLibrary(
    triad: (ChordType, bool) -> ChordType,
    tetrad: (ChordType, bool) -> ChordType,
    inversions: ChordType -> seq<ChordType>,
    commonChromas: (Chord, Chord) -> nat,
    isTrueChord: Chord -> bool,
    cardinality: ChordType -> nat)
}
