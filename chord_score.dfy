/** The chord similarity scorer (SimilarityScoreChord). A preset chooses a
    mapping, which reduces every chord type to one of a dictionary of mapped
    types, optional input and output limiting sets, and a scoring function.
    A chord's category is its root's clockwise steps on the circle of fifths
    from A times the number of mapped types, plus the mapped type's position
    in the dictionary; silence and "no chord" share the category after the
    last chord, and a chord whose mapped type is not in the dictionary gets
    the sentinel one past that. The bass mapping categorises by the bass
    note only. */
module ChordScore {
  import opened Music

  // ----------------------------------------------------------------- mappings

  datatype Mapping = Mirex09 | Triads | TriadsWithBass | Tetrads | TetradsWithBass
                   | NoMapping | BassMapping | RootMapping

  function MappingName(m: Mapping): string
  {
    match m
    case Mirex09 => "mirex09"
    case Triads => "triads"
    case TriadsWithBass => "triadsWithBass"
    case Tetrads => "tetrads"
    case TetradsWithBass => "tetradsWithBass"
    case NoMapping => "none"
    case BassMapping => "bass"
    case RootMapping => "root"
  }

  /** The mapping a name selects; any other name is an error
      (SimilarityScoreChord.cpp:191-289). */
  function ParseMapping(name: string): (r: Result<Mapping>)
    ensures r.Ok? ==> MappingName(r.value) == name
    ensures forall m :: name == MappingName(m) ==> r == Ok(m)
  {
    if name == "mirex09" then Ok(Mirex09)
    else if name == "triads" then Ok(Triads)
    else if name == "triadsWithBass" then Ok(TriadsWithBass)
    else if name == "tetrads" then Ok(Tetrads)
    else if name == "tetradsWithBass" then Ok(TetradsWithBass)
    else if name == "none" then Ok(NoMapping)
    else if name == "bass" then Ok(BassMapping)
    else if name == "root" then Ok(RootMapping)
    else Err("Unknown mapping: " + name)
  }

  /** The scoring functions the presets name. The presets never name any
      other, so the scorer's error for an unknown scoring name cannot be
      reached. */
  datatype Scoring = Exact | Mirex2010 | ChromaRecall | ChromaPrecision | ChromaFmeasure

  // ------------------------------------------------------------- type sets

  const FourTriadTypes: set<ChordType> := {MajorType, MinorType, DiminishedType, AugmentedType}

  const SixTriadTypes: set<ChordType> := FourTriadTypes + {SuspendedSecondType, SuspendedFourthType}

  const TriadTypes: set<ChordType> := SixTriadTypes + {MajorFlatFifthType, MinorSharpFifthType}

  /** The twenty four-note types of the tetrad dictionary. */
  const SeventhTypes: set<ChordType> :=
    {AugmentedSeventhType, AugmentedMajorSeventhType, MajorFlatFifthSeventhType,
     MajorFlatFifthMajorSeventhType, DominantSeventhType, MajorSeventhType, MajorSixthType,
     HalfDiminishedType, DiminishedSeventhType, MinorSharpFifthSeventhType,
     MinorSharpFifthMajorSeventhType, MinorSeventhType, MinorMajorSeventhType, MinorSixthType,
     SuspendedFourthSeventhType, SuspendedFourthMajorSeventhType, SuspendedFourthSixthType,
     SuspendedSecondSeventhType, SuspendedSecondMajorSeventhType, SuspendedSecondSixthType}

  const TetradTypes: set<ChordType> := TriadTypes + SeventhTypes

  const SeventhsOutput: set<ChordType> :=
    {MajorType, MinorType, DominantSeventhType, MajorSeventhType, MinorSeventhType}

  /** Every inversion of every type in ts (SimilarityScoreChord.cpp:520-524,
      once per type). */
  function Inversions(lib: ChordLibrary, ts: set<ChordType>): (r: set<ChordType>)
    ensures forall t, u :: t in ts && u in lib.inversions(t) ==> u in r
    ensures forall u :: u in r ==> exists t :: t in ts && u in lib.inversions(t)
  {
    set t, u | t in ts && u in lib.inversions(t) :: u
  }

  /** The dictionary of mapped types a mapping builds
      (SimilarityScoreChord.cpp:191-284). */
  function MappedTypesOf(mapping: Mapping, lib: ChordLibrary): (types: set<ChordType>)
    ensures mapping !in {TriadsWithBass, TetradsWithBass} ==> NoneType !in types && types != {}
    ensures mapping in {NoMapping, BassMapping, RootMapping} ==> types == {RootOnlyType}
  {
    match mapping
    case Mirex09 => {MajorType, MinorType}
    case Triads => TriadTypes
    case TriadsWithBass => Inversions(lib, TriadTypes)
    case Tetrads => TetradTypes
    case TetradsWithBass => Inversions(lib, TetradTypes)
    case NoMapping => {RootOnlyType}
    case BassMapping => {RootOnlyType}
    case RootMapping => {RootOnlyType}
  }

  /** The output limiting set kept by the scorer: none when no limit is
      given, otherwise the given types that are mapped types, plus the none
      type if the given set holds it (SimilarityScoreChord.cpp:290-299). */
  function OutputLimit(mapped: set<ChordType>, given: set<ChordType>): (r: set<ChordType>)
    ensures given == {} ==> r == {}
    ensures forall t :: t in r <==> t in given && (t in mapped || t == NoneType)
  {
    if given == {} then {}
    else (mapped * given) + (if NoneType in given then {NoneType} else {})
  }

  // ---------------------------------------------------------- dictionary order

  /** The mapped types in the order the dictionary iterates in: ascending. */
  predicate Ascending(ts: seq<ChordType>)
  {
    forall i, j :: 0 <= i < j < |ts| ==> ts[i].rank < ts[j].rank
  }

  lemma {:induction false} LeastExists(s: set<ChordType>)
    requires s != {}
    ensures exists t :: t in s && forall u :: u in s ==> t.rank <= u.rank
  {
    var x :| x in s;
    if s == {x} {
      assert forall u :: u in s ==> x.rank <= u.rank;
    } else {
      LeastExists(s - {x});
      var m :| m in s - {x} && forall u :: u in s - {x} ==> m.rank <= u.rank;
      if x.rank <= m.rank {
        assert forall u :: u in s ==> x.rank <= u.rank;
      } else {
        assert forall u :: u in s ==> m.rank <= u.rank;
      }
    }
  }

  function Least(s: set<ChordType>): (t: ChordType)
    requires s != {}
    ensures t in s && forall u :: u in s ==> t.rank <= u.rank
  {
    LeastExists(s);
    var t :| t in s && forall u :: u in s ==> t.rank <= u.rank;
    t
  }

  /** The dictionary as a sequence in iteration order: exactly its types,
      each once, ascending. */
  function SortedTypes(s: set<ChordType>): (ts: seq<ChordType>)
    ensures |ts| == |s|
    ensures forall t :: t in ts <==> t in s
    ensures Ascending(ts)
    decreases |s|
  {
    if s == {} then []
    else
      var t := Least(s);
      var rest := SortedTypes(s - {t});
      PrependLeast(s, t, rest);
      [t] + rest
  }

  /** The least type of s followed by the rest of s in order is s in order. */
  lemma PrependLeast(s: set<ChordType>, t: ChordType, rest: seq<ChordType>)
    requires t in s && forall u :: u in s ==> t.rank <= u.rank
    requires |rest| == |s - {t}| && Ascending(rest)
    requires forall u :: u in rest <==> u in s - {t}
    ensures |[t] + rest| == |s| && Ascending([t] + rest)
    ensures forall u :: u in [t] + rest <==> u in s
  {
    var ts := [t] + rest;
    forall i, j | 0 <= i < j < |ts|
      ensures ts[i].rank < ts[j].rank
    {
      assert ts[j] == rest[j - 1] && rest[j - 1] in s - {t};
      if i > 0 {
        assert ts[i] == rest[i - 1];
      }
    }
  }

  /** How far into the dictionary's iteration a type sits. */
  function Position(ts: seq<ChordType>, t: ChordType): (p: nat)
    requires t in ts
    ensures p < |ts| && ts[p] == t
  {
    if ts[0] == t then 0 else 1 + Position(ts[1..], t)
  }

  /** In an ascending sequence every element sits at its own position. */
  lemma {:induction false} PositionOf(ts: seq<ChordType>, i: nat)
    requires Ascending(ts) && i < |ts|
    ensures Position(ts, ts[i]) == i
  {
    if i > 0 {
      assert ts[0].rank < ts[i].rank;
      assert ts[1..][i - 1] == ts[i];
      PositionOf(ts[1..], i - 1);
    }
  }

  // --------------------------------------------------------------- mapping

  /** The MIREX 2009 reduction: triads with a major third (and the suspended
      and augmented ones) become major, those with a minor third become
      minor, anything else root-only (SimilarityScoreChord.cpp:503-518). */
  function MirexMapping(lib: ChordLibrary, t: ChordType): (m: ChordType)
    ensures m in {MajorType, MinorType, RootOnlyType}
  {
    var triad := lib.triad(t, false);
    if triad in {MajorType, AugmentedType, SuspendedSecondType, SuspendedFourthType, MajorFlatFifthType} then MajorType
    else if triad in {MinorType, DiminishedType, MinorSharpFifthType} then MinorType
    else RootOnlyType
  }

  /** The type a chord type maps to (SimilarityScoreChord.cpp:470-501). The
      bass mapping never asks. */
  function MappedType(lib: ChordLibrary, mapping: Mapping, t: ChordType): ChordType
    requires mapping != BassMapping
  {
    match mapping
    case Mirex09 => MirexMapping(lib, t)
    case Triads => lib.triad(t, false)
    case TriadsWithBass => lib.triad(t, true)
    case Tetrads => lib.tetrad(t, false)
    case TetradsWithBass => lib.tetrad(t, true)
    case NoMapping => RootOnlyType
    case RootMapping => RootOnlyType
  }

  // ------------------------------------------------------------- categories

  /** The dictionary of a scorer: its mapping and its mapped types. Under the
      bass mapping the one mapped type is root-only. */
  predicate Fits(mapping: Mapping, types: set<ChordType>)
  {
    mapping == BassMapping ==> types == {RootOnlyType}
  }

  /** Every mapping's own dictionary fits it. */
  lemma MappedTypesFit(mapping: Mapping, lib: ChordLibrary)
    ensures Fits(mapping, MappedTypesOf(mapping, lib))
  {
  }

  /** 12 categories per mapped type, then the one shared by silence and "no
      chord" (SimilarityScoreChord.cpp:300-320). */
  function NumCategories(types: set<ChordType>): nat
  {
    12 * |types| + 1
  }

  /** The category of silence and "no chord". */
  function NoChordCategory(types: set<ChordType>): nat
  {
    12 * |types|
  }

  /** The steps of a chroma from A, clockwise on the circle of fifths. */
  function RootIndex(c: Chroma): nat
  {
    CircleStepsCW(FirstChroma, c)
  }

  /** The category of the chord with the root at `root` steps from A and
      the type at `position` among `count` types: one row of `count`
      categories per root. */
  function ChordCategory(root: nat, count: nat, position: nat): nat
  {
    root * count + position
  }

  /** A chord's category and the chord it is mapped to. */
  datatype Categorised = Categorised(category: nat, mapped: Chord)

  /** SimilarityScoreChord.cpp:440-467: the mapped chord of a chord has its
      root and its mapped type (under the bass mapping: its bass, root-only);
      the category is one past the last chord category, the sentinel, when
      the mapped type is not in the dictionary. */
  function CategoryOf(lib: ChordLibrary, mapping: Mapping, types: set<ChordType>, c: Chord): Categorised
  {
    if !c.Chord? then Categorised(NoChordCategory(types), NoChord)
    else if mapping == BassMapping then
      Categorised(RootIndex(c.bass), Chord(c.bass, RootOnlyType, c.bass))
    else
      var t := MappedType(lib, mapping, c.kind);
      if t in types then
        Categorised(ChordCategory(RootIndex(c.root), |types|, Position(SortedTypes(types), t)), Chord(c.root, t, c.root))
      else
        Categorised(NumCategories(types), Chord(c.root, t, c.root))
  }

  /** A chord is unmappable when its category is the sentinel. */
  predicate Unmappable(lib: ChordLibrary, mapping: Mapping, types: set<ChordType>, c: Chord)
  {
    CategoryOf(lib, mapping, types, c).category == NumCategories(types)
  }

  lemma RowBound(ci: nat, ti: nat, n: nat)
    requires ci < 12 && ti < n
    ensures ci * n + ti < 12 * n
  {
    assert (11 - ci) * n >= 0;
  }

  /** A category is never past the sentinel; it is the no-chord category
      exactly for silence and "no chord", and the sentinel exactly for a
      chord whose mapped type is outside the dictionary. */
  lemma CategoryRange(lib: ChordLibrary, mapping: Mapping, types: set<ChordType>, c: Chord)
    requires Fits(mapping, types)
    ensures CategoryOf(lib, mapping, types, c).category <= NumCategories(types)
    ensures CategoryOf(lib, mapping, types, c).category == NoChordCategory(types) <==> !c.Chord?
    ensures Unmappable(lib, mapping, types, c) <==>
              c.Chord? && mapping != BassMapping && MappedType(lib, mapping, c.kind) !in types
  {
    if c.Chord? && mapping != BassMapping {
      var t := MappedType(lib, mapping, c.kind);
      if t in types {
        RowBound(RootIndex(c.root), Position(SortedTypes(types), t), |types|);
      }
    }
  }

  /** Under the MIREX 2009 mapping a chord is unmappable exactly when its
      triad is neither of the major kind (major, augmented, suspended,
      flat-fifth major) nor of the minor kind (minor, diminished,
      sharp-fifth minor); the others land on their root's pair of categories,
      at the major or the minor type's place in the ordering of the two
      types (0 and 1 in some order). */
  lemma Mirex09Categories(lib: ChordLibrary, c: Chord)
    requires c.Chord?
    ensures var sorted := SortedTypes(MappedTypesOf(Mirex09, lib));
            && sorted[Position(sorted, MajorType)] == MajorType && sorted[Position(sorted, MinorType)] == MinorType
            && Position(sorted, MajorType) + Position(sorted, MinorType) == 1
    ensures var triad := lib.triad(c.kind, false);
            var r := CategoryOf(lib, Mirex09, MappedTypesOf(Mirex09, lib), c);
            var sorted := SortedTypes(MappedTypesOf(Mirex09, lib));
            && (Unmappable(lib, Mirex09, MappedTypesOf(Mirex09, lib), c)
                <==> triad !in {MajorType, AugmentedType, SuspendedSecondType, SuspendedFourthType, MajorFlatFifthType,
                                MinorType, DiminishedType, MinorSharpFifthType})
            && (triad in {MajorType, AugmentedType, SuspendedSecondType, SuspendedFourthType, MajorFlatFifthType}
                ==> r.mapped == Chord(c.root, MajorType, c.root)
                    && r.category == 2 * RootIndex(c.root) + Position(sorted, MajorType))
            && (triad in {MinorType, DiminishedType, MinorSharpFifthType}
                ==> r.mapped == Chord(c.root, MinorType, c.root)
                    && r.category == 2 * RootIndex(c.root) + Position(sorted, MinorType))
  {
    var types := MappedTypesOf(Mirex09, lib);
    var sorted := SortedTypes(types);
    assert |sorted| == 2;
    assert sorted[0].rank < sorted[1].rank;
    assert sorted[0] == MajorType && sorted[1] == MinorType by {
      assert sorted[0] in types && sorted[1] in types;
    }
    PositionOf(sorted, 0);
    PositionOf(sorted, 1);
    CategoryRange(lib, Mirex09, types, c);
  }

  // ----------------------------------------------------------------- labels

  /** What a category stands for: a chord, or under the bass mapping a bass
      note. */
  datatype CategoryLabel = ChordLabel(chord: Chord) | ChromaLabel(chroma: Chroma)

  /** The labels of one root: a chord per mapped type. */
  function RowLabels(root: Chroma, types: seq<ChordType>): (labels: seq<CategoryLabel>)
    ensures |labels| == |types|
    ensures forall i :: 0 <= i < |types| ==> labels[i] == ChordLabel(Chord(root, types[i], root))
  {
    seq(|types|, i requires 0 <= i < |types| => ChordLabel(Chord(root, types[i], root)))
  }

  /** The chord labels of the first n roots on the circle of fifths. */
  function ChordLabels(types: seq<ChordType>, n: nat): seq<CategoryLabel>
    requires n <= 12
  {
    if n == 0 then [] else ChordLabels(types, n - 1) + RowLabels(CircleOfFifths(FirstChroma)[n - 1], types)
  }

  lemma {:induction false} ChordLabelsLength(types: seq<ChordType>, n: nat)
    requires n <= 12
    ensures |ChordLabels(types, n)| == n * |types|
  {
    if n > 0 {
      ChordLabelsLength(types, n - 1);
      assert n * |types| == (n - 1) * |types| + |types|;
    }
  }

  lemma {:induction false} ChordLabelsAt(types: seq<ChordType>, n: nat, ci: nat, ti: nat)
    requires n <= 12 && ci < n && ti < |types|
    ensures ci * |types| + ti < n * |types|
    ensures |ChordLabels(types, n)| == n * |types|
    ensures ChordLabels(types, n)[ci * |types| + ti]
            == ChordLabel(Chord(CircleOfFifths(FirstChroma)[ci], types[ti], CircleOfFifths(FirstChroma)[ci]))
  {
    ChordLabelsLength(types, n);
    ChordLabelsLength(types, n - 1);
    assert n * |types| == (n - 1) * |types| + |types|;
    if ci < n - 1 {
      ChordLabelsAt(types, n - 1, ci, ti);
    } else {
      assert ci * |types| == (n - 1) * |types|;
    }
  }

  /** The bass mapping's labels: the twelve chromas. */
  function BassLabels(): (labels: seq<CategoryLabel>)
    ensures |labels| == 12
    ensures forall i :: 0 <= i < 12 ==> labels[i] == ChromaLabel(CircleOfFifths(FirstChroma)[i])
  {
    seq(12, i requires 0 <= i < 12 => ChromaLabel(CircleOfFifths(FirstChroma)[i]))
  }

  /** The label list built at construction (SimilarityScoreChord.cpp:302-321):
      per root on the circle of fifths from A, per mapped type in dictionary
      order, that chord; or the twelve chromas under the bass mapping; then
      "no chord". */
  function CategoryLabels(mapping: Mapping, types: set<ChordType>): seq<CategoryLabel>
  {
    (if mapping == BassMapping then BassLabels() else ChordLabels(SortedTypes(types), 12))
    + [ChordLabel(NoChord)]
  }

  /** There is one label per category, "no chord" last. */
  lemma LabelCount(mapping: Mapping, types: set<ChordType>)
    requires Fits(mapping, types)
    ensures |CategoryLabels(mapping, types)| == NumCategories(types)
    ensures CategoryLabels(mapping, types)[NoChordCategory(types)] == ChordLabel(NoChord)
  {
    ChordLabelsLength(SortedTypes(types), 12);
  }

  /** How the label of a mapped chord reads. */
  function LabelOf(mapping: Mapping, m: Chord): CategoryLabel
  {
    if mapping == BassMapping && m.Chord? then ChromaLabel(m.root) else ChordLabel(m)
  }

  /** The steps from A pick the chroma back out of the circle of fifths. */
  lemma RootIndexRoundTrip(c: Chroma)
    ensures RootIndex(c) < 12 && CircleOfFifths(FirstChroma)[RootIndex(c)] == c
  {
    var cs := CircleOfFifths(FirstChroma);
    var i := RootIndex(c);
    assert cs[i] == Advance(FirstChroma, i) == c;
  }

  /** A mappable chord under a mapping by type sits at its root's row and
      its mapped type's column of the chord labels. */
  lemma {:induction false} TypeCategoryLabel(lib: ChordLibrary, mapping: Mapping, types: set<ChordType>, c: Chord)
    requires mapping != BassMapping && c.Chord? && MappedType(lib, mapping, c.kind) in types
    ensures CategoryOf(lib, mapping, types, c).category < |ChordLabels(SortedTypes(types), 12)|
    ensures ChordLabels(SortedTypes(types), 12)[CategoryOf(lib, mapping, types, c).category]
            == ChordLabel(CategoryOf(lib, mapping, types, c).mapped)
  {
    var sorted := SortedTypes(types);
    var t := MappedType(lib, mapping, c.kind);
    RootIndexRoundTrip(c.root);
    ChordLabelsAt(sorted, 12, RootIndex(c.root), Position(sorted, t));
  }

  /** The label of a chord's category is its mapped chord: categories and
      mapped chords correspond. */
  lemma {:induction false} LabelOfCategory(lib: ChordLibrary, mapping: Mapping, types: set<ChordType>, c: Chord)
    requires Fits(mapping, types) && !Unmappable(lib, mapping, types, c)
    ensures CategoryOf(lib, mapping, types, c).category < |CategoryLabels(mapping, types)|
    ensures CategoryLabels(mapping, types)[CategoryOf(lib, mapping, types, c).category]
            == LabelOf(mapping, CategoryOf(lib, mapping, types, c).mapped)
  {
    LabelCount(mapping, types);
    CategoryRange(lib, mapping, types, c);
    if c.Chord? {
      if mapping == BassMapping {
        RootIndexRoundTrip(c.bass);
      } else {
        TypeCategoryLabel(lib, mapping, types, c);
      }
    }
  }

  /** Two mappable chords share a category exactly when they are mapped to
      the same chord. */
  lemma SameCategory(lib: ChordLibrary, mapping: Mapping, types: set<ChordType>, a: Chord, b: Chord)
    requires Fits(mapping, types) && !Unmappable(lib, mapping, types, a) && !Unmappable(lib, mapping, types, b)
    ensures CategoryOf(lib, mapping, types, a).category == CategoryOf(lib, mapping, types, b).category
            <==> CategoryOf(lib, mapping, types, a).mapped == CategoryOf(lib, mapping, types, b).mapped
  {
    LabelOfCategory(lib, mapping, types, a);
    LabelOfCategory(lib, mapping, types, b);
  }

  // ---------------------------------------------------------------- scoring

  /** The library facts the chroma ratios divide by: a true chord's type has
      chromas. */
  predicate RatiosDefined(lib: ChordLibrary, ref: Chord, test: Chord)
  {
    (lib.isTrueChord(ref) ==> lib.cardinality(TypeOf(ref)) > 0)
    && (lib.isTrueChord(test) ==> lib.cardinality(TypeOf(test)) > 0)
  }

  /** Every scoring but the chroma ratios is defined on any pair. */
  predicate Scorable(lib: ChordLibrary, scoring: Scoring, ref: Chord, test: Chord)
  {
    scoring in {Exact, Mirex2010} || RatiosDefined(lib, ref, test)
  }

  /** The score of a pair inside both limits (SimilarityScoreChord.cpp:350-429). */
  function Scored(lib: ChordLibrary, scoring: Scoring, ref: Chord, test: Chord, refCategory: nat, testCategory: nat): (s: real)
    requires Scorable(lib, scoring, ref, test)
    ensures s >= 0.0
    ensures scoring in {Exact, Mirex2010} ==> s == 0.0 || s == 1.0
  {
    var common := lib.commonChromas(ref, test);
    match scoring
    case Exact => if refCategory == testCategory then 1.0 else 0.0
    case Mirex2010 =>
      if common > 2
         || (!lib.isTrueChord(ref) && !lib.isTrueChord(test))
         || (common > 1 && lib.triad(TypeOf(ref), false) in {DiminishedType, AugmentedType})
      then 1.0 else 0.0
    case ChromaRecall =>
      if lib.isTrueChord(ref) then common as real / lib.cardinality(TypeOf(ref)) as real
      else if !lib.isTrueChord(test) then 1.0 else 0.0
    case ChromaPrecision =>
      if lib.isTrueChord(test) then common as real / lib.cardinality(TypeOf(test)) as real
      else if !lib.isTrueChord(ref) then 1.0 else 0.0
    case ChromaFmeasure =>
      if lib.isTrueChord(ref) && lib.isTrueChord(test) then
        2.0 * common as real / (lib.cardinality(TypeOf(ref)) + lib.cardinality(TypeOf(test))) as real
      else if !lib.isTrueChord(ref) && !lib.isTrueChord(test) then 1.0 else 0.0
  }

  /** The error for a test chord the evaluation rules cannot handle. */
  const UnhandledChord: string := "The chord in the test sequence cannot be handled by the current evaluating rules"

  /** The reference is inside the input limit. */
  predicate InInputLimit(inputLimit: set<ChordType>, ref: Chord)
  {
    inputLimit == {} || TypeOf(ref) in inputLimit
  }

  /** The mapped reference is inside the output limit. */
  predicate InOutputLimit(outputLimit: set<ChordType>, mappedRef: Chord)
  {
    outputLimit == {} || TypeOf(mappedRef) in outputLimit
  }

  /** The score of a test chord against a reference chord
      (SimilarityScoreChord.cpp:330-438): -1 for a reference outside the
      limits or unmappable, an error for an unmappable test chord whose
      reference is inside the input limit, otherwise the scoring's value. */
  function ScoreOf(lib: ChordLibrary, mapping: Mapping, types: set<ChordType>, inputLimit: set<ChordType>,
                   outputLimit: set<ChordType>, scoring: Scoring, ref: Chord, test: Chord): Result<real>
    requires Scorable(lib, scoring, ref, test)
  {
    var r := CategoryOf(lib, mapping, types, ref);
    var t := CategoryOf(lib, mapping, types, test);
    var n := NumCategories(types);
    if !InInputLimit(inputLimit, ref) then Ok(-1.0)
    else if t.category == n then Err(UnhandledChord)
    else if r.category != n && InOutputLimit(outputLimit, r.mapped) then
      Ok(Scored(lib, scoring, ref, test, r.category, t.category))
    else Ok(-1.0)
  }

  /** The error happens exactly for an unmappable test chord against a
      reference inside the input limit. */
  lemma ScoreError(lib: ChordLibrary, mapping: Mapping, types: set<ChordType>, inputLimit: set<ChordType>,
                   outputLimit: set<ChordType>, scoring: Scoring, ref: Chord, test: Chord)
    requires Scorable(lib, scoring, ref, test)
    ensures ScoreOf(lib, mapping, types, inputLimit, outputLimit, scoring, ref, test).Err?
            <==> InInputLimit(inputLimit, ref) && Unmappable(lib, mapping, types, test)
  {
  }

  /** A pair is left out of the evaluation, scored -1, exactly when the
      reference is outside the input limit, or the test chord is mappable
      and the reference is unmappable or outside the output limit. */
  lemma ScoreSkipped(lib: ChordLibrary, mapping: Mapping, types: set<ChordType>, inputLimit: set<ChordType>,
                     outputLimit: set<ChordType>, scoring: Scoring, ref: Chord, test: Chord)
    requires Scorable(lib, scoring, ref, test)
    ensures ScoreOf(lib, mapping, types, inputLimit, outputLimit, scoring, ref, test) == Ok(-1.0)
            <==> !InInputLimit(inputLimit, ref)
                 || (!Unmappable(lib, mapping, types, test)
                     && (Unmappable(lib, mapping, types, ref)
                         || !InOutputLimit(outputLimit, CategoryOf(lib, mapping, types, ref).mapped)))
  {
  }

  /** Under exact scoring a scored pair gets 1 exactly when both chords are
      mapped to the same chord, and 0 otherwise. */
  lemma ExactScore(lib: ChordLibrary, mapping: Mapping, types: set<ChordType>, inputLimit: set<ChordType>,
                   outputLimit: set<ChordType>, ref: Chord, test: Chord)
    requires Fits(mapping, types) && InInputLimit(inputLimit, ref)
    requires !Unmappable(lib, mapping, types, ref) && !Unmappable(lib, mapping, types, test)
    requires InOutputLimit(outputLimit, CategoryOf(lib, mapping, types, ref).mapped)
    ensures var s := ScoreOf(lib, mapping, types, inputLimit, outputLimit, Exact, ref, test);
            s.Ok? && (s.value == 0.0 || s.value == 1.0)
            && (s.value == 1.0 <==> CategoryOf(lib, mapping, types, ref).mapped == CategoryOf(lib, mapping, types, test).mapped)
  {
    SameCategory(lib, mapping, types, ref, test);
  }

  // ---------------------------------------------------------------- presets

  /** What a preset passes on: mapping name, input and output limiting
      sets, scoring. */
  datatype Settings = Settings(mapping: string, inputLimit: set<ChordType>, outputLimit: set<ChordType>, scoring: Scoring)

  const PresetNames: set<string> :=
    {"Mirex2009", "4TriadsInput", "4TriadsOutput", "6TriadsInput", "6TriadsOutput", "Triads",
     "Tetrads", "Mirex2010", "ChromaRecall", "ChromaPrecision", "ChromaFmeasure", "Bass", "Root",
     "MirexRoot", "TetradsOnly", "TriadsInput", "MirexMajMin", "MirexMajMinBass", "MirexSevenths",
     "MirexSeventhsBass"}

  /** The settings a preset name selects (SimilarityScoreChord.cpp:25-183);
      other names are an error, and every preset names a known mapping. */
  function ChordPreset(lib: ChordLibrary, preset: string): (r: Result<Settings>)
    ensures r.Ok? <==> preset in PresetNames
    ensures r.Ok? ==> ParseMapping(r.value.mapping).Ok?
  {
    var none: set<ChordType> := {};
    if preset == "Mirex2009" then Ok(Settings("mirex09", none, none, Exact))
    else if preset == "4TriadsInput" then Ok(Settings("triads", Inversions(lib, FourTriadTypes), none, Exact))
    else if preset == "4TriadsOutput" then Ok(Settings("triads", none, FourTriadTypes + {NoneType}, Exact))
    else if preset == "6TriadsInput" then Ok(Settings("triads", Inversions(lib, SixTriadTypes), none, Exact))
    else if preset == "6TriadsOutput" then Ok(Settings("triads", none, SixTriadTypes + {NoneType}, Exact))
    else if preset == "Triads" then Ok(Settings("triads", none, none, Exact))
    else if preset == "Tetrads" then Ok(Settings("tetrads", none, none, Exact))
    else if preset == "Mirex2010" then Ok(Settings("none", none, none, Mirex2010))
    else if preset == "ChromaRecall" then Ok(Settings("none", none, none, ChromaRecall))
    else if preset == "ChromaPrecision" then Ok(Settings("none", none, none, ChromaPrecision))
    else if preset == "ChromaFmeasure" then Ok(Settings("none", none, none, ChromaFmeasure))
    else if preset == "Bass" then Ok(Settings("bass", none, none, Exact))
    else if preset == "Root" || preset == "MirexRoot" then Ok(Settings("root", none, none, Exact))
    else if preset == "TetradsOnly" then Ok(Settings("tetrads", none, SeventhTypes, Exact))
    else if preset == "TriadsInput" then Ok(Settings("triads", Inversions(lib, SixTriadTypes), none, Exact))
    else if preset == "MirexMajMin" then Ok(Settings("triads", none, {MajorType, MinorType, NoneType}, Exact))
    else if preset == "MirexMajMinBass" then
      Ok(Settings("triadsWithBass", none, Inversions(lib, {MajorType, MinorType}) + {NoneType}, Exact))
    else if preset == "MirexSevenths" then Ok(Settings("tetrads", none, SeventhsOutput + {NoneType}, Exact))
    else if preset == "MirexSeventhsBass" then
      Ok(Settings("tetradsWithBass", none, Inversions(lib, SeventhsOutput) + {NoneType}, Exact))
    else Err("Unknown score preset: " + preset)
  }

  // ----------------------------------------------------------------- scorer

  /** The chord scorer: the rules fixed at construction, the label of every
      category, and the categories and mapped chords of the last pair
      scored. */
  class SimilarityScoreChord {
    const lib: ChordLibrary
    const mapping: Mapping
    const inputLimitingSet: set<ChordType>
    const outputLimitingSet: set<ChordType>
    const mappedTypes: set<ChordType>
    const numOfMappedTypes: nat
    const scoring: Scoring
    const numOfCategories: nat
    const categoryLabels: seq<CategoryLabel>
    var refCategory: nat
    var testCategory: nat
    var mappedRefLabel: Chord
    var mappedTestLabel: Chord

    /** SimilarityScoreChord.cpp:185-323 once the mapping name has been
        recognised: the dictionary, the output limit and the labels, built
        root by root and type by type. */
    constructor(lib: ChordLibrary, mapping: Mapping, inputLimit: set<ChordType>, outputLimit: set<ChordType>, scoring: Scoring)
      ensures this.lib == lib && this.mapping == mapping && this.scoring == scoring
      ensures inputLimitingSet == inputLimit
      ensures mappedTypes == MappedTypesOf(mapping, lib) && numOfMappedTypes == |mappedTypes|
      ensures outputLimitingSet == OutputLimit(mappedTypes, outputLimit)
      ensures numOfCategories == NumCategories(mappedTypes)
      ensures categoryLabels == CategoryLabels(mapping, mappedTypes)
    {
      var types := MappedTypesOf(mapping, lib);
      var labels := BuildLabels(mapping, SortedTypes(types));
      this.lib := lib;
      this.mapping := mapping;
      this.scoring := scoring;
      inputLimitingSet := inputLimit;
      mappedTypes := types;
      numOfMappedTypes := |types|;
      outputLimitingSet := OutputLimit(types, outputLimit);
      numOfCategories := 12 * |types| + 1;
      categoryLabels := labels;
      refCategory, testCategory := 0, 0;
      mappedRefLabel, mappedTestLabel := NoChord, NoChord;
    }

    /** Records both categories and mapped chords, then scores
        (SimilarityScoreChord.cpp:330-438). */
    method Score(ref: Chord, test: Chord) returns (r: Result<real>)
      requires numOfCategories == NumCategories(mappedTypes)
      requires Scorable(lib, scoring, ref, test)
      modifies this
      ensures refCategory == CategoryOf(lib, mapping, mappedTypes, ref).category
      ensures testCategory == CategoryOf(lib, mapping, mappedTypes, test).category
      ensures mappedRefLabel == CategoryOf(lib, mapping, mappedTypes, ref).mapped
      ensures mappedTestLabel == CategoryOf(lib, mapping, mappedTypes, test).mapped
      ensures r == ScoreOf(lib, mapping, mappedTypes, inputLimitingSet, outputLimitingSet, scoring, ref, test)
    {
      var refResult := CategoryOf(lib, mapping, mappedTypes, ref);
      var testResult := CategoryOf(lib, mapping, mappedTypes, test);
      refCategory, mappedRefLabel := refResult.category, refResult.mapped;
      testCategory, mappedTestLabel := testResult.category, testResult.mapped;
      if inputLimitingSet == {} || TypeOf(ref) in inputLimitingSet {
        if testCategory == numOfCategories {
          return Err(UnhandledChord);
        }
        if refCategory != numOfCategories {
          if outputLimitingSet == {} || TypeOf(mappedRefLabel) in outputLimitingSet {
            return Ok(Scored(lib, scoring, ref, test, refCategory, testCategory));
          }
        }
      }
      return Ok(-1.0);
    }
  }

  /** The label list of a dictionary given in iteration order, built as
      the scorer builds it: root by root on the circle of fifths from A,
      type by type within a root, or chroma by chroma under the bass
      mapping, then "no chord" (SimilarityScoreChord.cpp:302-321). */
  method BuildLabels(mapping: Mapping, sorted: seq<ChordType>) returns (labels: seq<CategoryLabel>)
    ensures labels == (if mapping == BassMapping then BassLabels() else ChordLabels(sorted, 12)) + [ChordLabel(NoChord)]
  {
    var chromas := CircleOfFifths(FirstChroma);
    labels := [];
    if mapping != BassMapping {
      for ci := 0 to 12
        invariant labels == ChordLabels(sorted, ci)
      {
        for ti := 0 to |sorted|
          invariant labels == ChordLabels(sorted, ci) + RowLabels(chromas[ci], sorted[..ti])
        {
          labels := labels + [ChordLabel(Chord(chromas[ci], sorted[ti], chromas[ci]))];
        }
        assert sorted[..|sorted|] == sorted;
      }
    } else {
      for ci := 0 to 12
        invariant labels == BassLabels()[..ci]
      {
        labels := labels + [ChromaLabel(chromas[ci])];
      }
    }
    labels := labels + [ChordLabel(NoChord)];
  }

  /** Builds a scorer for a preset name; an unknown preset is an error, and
      an unknown mapping name would be one (SimilarityScoreChord.cpp:25-183,
      285-288). */
  method NewSimilarityScoreChord(lib: ChordLibrary, preset: string) returns (r: Result<SimilarityScoreChord>)
    ensures r.Ok? <==> preset in PresetNames
    ensures r.Ok? ==> fresh(r.value) && r.value.lib == lib
                      && r.value.scoring == ChordPreset(lib, preset).value.scoring
                      && r.value.inputLimitingSet == ChordPreset(lib, preset).value.inputLimit
                      && MappingName(r.value.mapping) == ChordPreset(lib, preset).value.mapping
                      && r.value.mappedTypes == MappedTypesOf(r.value.mapping, lib)
                      && r.value.outputLimitingSet == OutputLimit(r.value.mappedTypes, ChordPreset(lib, preset).value.outputLimit)
                      && r.value.numOfCategories == NumCategories(r.value.mappedTypes)
                      && r.value.categoryLabels == CategoryLabels(r.value.mapping, r.value.mappedTypes)
  {
    var settings := ChordPreset(lib, preset);
    if settings.Err? {
      return Err(settings.message);
    }
    var mapping := ParseMapping(settings.value.mapping);
    var scorer := new SimilarityScoreChord(lib, mapping.value, settings.value.inputLimit,
                                           settings.value.outputLimit, settings.value.scoring);
    r := Ok(scorer);
  }
}
