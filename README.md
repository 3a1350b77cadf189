# MusOOEvaluator scoring engine in Dafny

This project models the scoring engine behind MusOOEvaluator, a tool that
compares a reference annotation of a piece of music (chords, keys, notes or
segments) with a test transcription. It has the following parts:

- **Frame-based pairwise evaluation** (`PairwiseEvaluation<T>`):
  - collects the change points of both label sequences;
  - sweeps the segments between consecutive change points with two
    forward-only cursors;
  - asks a similarity scorer for a score and two categories;
  - adds each segment's length to one cell of a confusion matrix and
    score × length to a running score;
  - keeps per-file histories of matrices, scores and durations, with their
    reductions.
- **Similarity scorers** for keys, notes and chords. These are the category
  mapping, the label tables, the presets, the input and output limiting sets
  and the scoring rules.
- **Statistics of a confusion matrix** for chords, keys and notes. These are
  traces, diagonals, root blocks, type strides and last-row or last-column
  slices.
- **Segmentation evaluation.** This covers boundary recall and precision per
  tolerance, under- and over-segmentation, and the directional Hamming
  measure.
- **The evaluator driver's computations.**
  - The longest key of a sequence: durations summed per distinct key, with
    the first-seen key winning ties.
  - The accumulation of per-file results into a global matrix, a total
    duration and a weighted score.
  - The global-key mode, which counts one cell per piece.

**Model choices**

- Times and durations are exact `real`s.
- A confusion matrix is a `seq<seq<real>>`. The sweep accumulates it in an
  `array2<real>` and takes a snapshot at the end.
- Every statistic is proved equal to the sum of the matrix over a named set
  of cells (`Matrices.Masked`), which serves as its independent reference
  definition.
- The MusOO music library (Chroma, Key, Note, Chord, ChordType and their
  reductions) is not part of this model. It appears only as the few values
  and functions the scorers use:
  - `Music.CircleStepsCW`, the clockwise steps on the circle of fifths;
  - `Music.CircleOfFifths`;
  - a `ChordLibrary` record of uninterpreted functions (triad, tetrad,
    inversions, common chromas, cardinality, isTrueChord).

## Model

| member | source | states |
|---|---|---|
| PairwiseEvaluation.InsertLabelPoints | PairwiseEvaluation.h:116-133 | the insertion loop over a sequence builds the same increasing list as the fold that inserts each label's in-window onset and offset, shifted back by the delay |
| PairwiseEvaluation.AddLabelPointsMembers | PairwiseEvaluation.h:116-133 | after the insertions the list holds exactly the old points plus the in-window onsets and offsets of the labels |
| PairwiseEvaluation.CollectChangeTimes | PairwiseEvaluation.h:114-140 | collecting both sequences' points into the set yields exactly the sorted change points |
| PairwiseEvaluation.ChangeTimesEnumerates | PairwiseEvaluation.h:114-140 | the sorted change points are strictly increasing (duplicate-free) and list exactly the start, the end and every in-window onset and offset of both sequences, and no other sorted list does |
| PairwiseEvaluation.AdvanceCursor | PairwiseEvaluation.h:149-158 | the forward-only cursor comes to rest at the first label that is the last one or whose (shifted) offset is not before the current time, an index inside the sequence |
| PairwiseEvaluation.CursorMonotone | PairwiseEvaluation.h:149-158 | a later time never puts a cursor further back |
| PairwiseEvaluation.SweepSegment | PairwiseEvaluation.h:149-198 | one segment: both cursors land at their closed-form positions; the outcome is counted, with the segment's length, exactly when the reference duration lies within [min, max] and the score is non-negative; a counted outcome names a cell inside the matrix |
| PairwiseEvaluation.SweepStep | PairwiseEvaluation.h:195-207 | a counted segment adds its length to exactly one cell of the in-place matrix and score × length to the running score; a skipped segment changes neither |
| PairwiseEvaluation.SweepOver | PairwiseEvaluation.h:143-207 | the in-place matrix ends as the sum of the counted outcomes and the running score as their weighted sum |
| PairwiseEvaluation.Sweep | PairwiseEvaluation.h:115-207 | the matrix and running score of one pair are those of its outcomes over all change points |
| PairwiseEvaluation.Evaluation.AddSequencePair | PairwiseEvaluation.h:84-223 | appends exactly one matrix, one score and one duration and leaves earlier entries unchanged; the duration is the sum of the new matrix, and the score is the running score divided by it when positive |
| PairwiseEvaluation.Evaluation.Duration | PairwiseEvaluation.h:243-248 | the last duration is the cell sum of the last matrix |
| PairwiseEvaluation.Evaluation.TotalConfusionMatrix | PairwiseEvaluation.h:267-277 | the element-wise sum of all stored matrices, whose cell sum is the total duration |
| PairwiseLemmas.AccumulateTotal | PairwiseEvaluation.h:203-217 | mass conservation: the cells of a pair's matrix add up to the length of the counted segments |
| PairwiseLemmas.PairScoreInUnitRange | PairwiseEvaluation.h:203-222 | without a positive delay, and with a scorer that never exceeds 1, the stored score lies in [0, 1] and stays 0 when the duration is 0 |
| PairwiseLemmas.SegmentLengthsNonNegative | PairwiseEvaluation.h:143-147 | without a positive delay no segment has a negative length |
| PairwiseLemmas.ChangeTimesHoldEnds | PairwiseEvaluation.h:109-140 | the change points always include the start and the end, and the end is the last reference offset when the given end is not after the start |
| PairwiseLemmas.LastChangeTimeIsEnd | PairwiseEvaluation.h:115-140 | without a negative delay the last change point is the end |
| PairwiseLemmas.CountedLengthTelescopes | PairwiseEvaluation.h:143-206 | when every segment is counted, the lengths telescope to the distance from the start to the last change point reached |
| PairwiseLemmas.FullCoverage | PairwiseEvaluation.h:115-217 | with zero delay and nothing excluded, the matrix of a pair sums to end − start |
| PairwiseLemmas.CountedLengthWithinSpan | PairwiseEvaluation.h:143-206 | when no segment is negative, the counted lengths lie between 0 and the distance from the start to the last change point reached, whatever is left out |
| PairwiseLemmas.SelfSegment | PairwiseEvaluation.h:162-193 | a sequence compared with itself without delay reads the same label on both sides in every segment |
| PairwiseLemmas.SelfOutcomes | PairwiseEvaluation.h:143-207 | in a self-comparison every counted segment lies on the diagonal, and scores 1 when the scorer gives identical labels 1 |
| PairwiseLemmas.AccumulateOffDiagonal | PairwiseEvaluation.h:203-206 | outcomes that all lie on the diagonal leave every off-diagonal cell at 0 |
| PairwiseLemmas.RunningScoreAllOne | PairwiseEvaluation.h:203-206 | when every counted segment scores 1 the running score equals the counted length |
| PairwiseLemmas.SelfAlignment | PairwiseEvaluation.h:84-223 | aligning a sequence with itself without delay gives a matrix with nothing off the diagonal, and a score of 1 when the scorer gives identical labels 1 and something is counted |
| PairwiseLemmas.PartialCoverage | PairwiseEvaluation.h:115-217 | with zero delay, whatever the duration filter and the scorer exclude, the matrix of a pair sums to between 0 and end − start |
| PairwiseLemmas.AveragesInUnitRange | PairwiseEvaluation.h:279-288 | per-file scores in [0, 1] give a mean and a duration-weighted mean in [0, 1] |
| PairwiseLemmas.WeightedSumBounds | PairwiseEvaluation.h:285-288 | the inner product of non-negative durations with scores in [0, 1] lies between 0 and the total duration |
| NoteStats.NewNoteStats | NoteEvaluationStats.cpp:13-16 | the notes block is the corner of all rows but the last |
| NoteStats.OctaveErrors | NoteEvaluationStats.cpp:44-53 | the strided loop sums exactly the cells whose notes are a whole number of octaves (at least one) apart |
| NoteStats.FifthErrors | NoteEvaluationStats.cpp:55-64 | the strided loop sums exactly the cells whose notes are 5, 17, 29, … semitones apart |
| NoteStats.OctaveBelowStep | NoteEvaluationStats.cpp:46-51 | each octave step of the loop adds the two diagonals at ±i |
| NoteStats.FifthBelowStep | NoteEvaluationStats.cpp:57-62 | each step of the fifth loop adds the two diagonals at ±i |
| NoteStats.FifthStep | NoteEvaluationStats.cpp:57-62 | the fifth distances below i + 12 are those below i and i itself |
| NoteStats.NotePartition | NoteEvaluationStats.cpp:24-42 | notes block, deletions (last column), insertions (last row) and correct silence add up to the whole matrix |
| NoteStats.NoteErrorsWithinBlock | NoteEvaluationStats.cpp:24-74 | correct, octave, fifth, chromatic-up and chromatic-down cells are disjoint, so for durations their total lies between 0 and the notes block |
| KeyStats.NewKeyStats | KeyEvaluationStats.cpp:14-21 | the number of modes is the rows before the last, divided by the chromas with truncation; the keys corner fits below the last row |
| KeyStats.UniquesInRef | KeyEvaluationStats.cpp:108-111 | counts the key rows of the corner that hold a positive cell |
| KeyStats.UniquesInTest | KeyEvaluationStats.cpp:113-116 | counts the key columns of the corner that hold a positive cell |
| KeyStats.AdjacentCells | KeyEvaluationStats.cpp:48-54 | the diagonals ±2 and ±22 are exactly the same-mode keys a fifth apart |
| KeyStats.ChromaticCells | KeyEvaluationStats.cpp:100-106 | the diagonals ±10 and ±14 are exactly the same-mode keys a semitone apart |
| KeyStats.AdjacentKeysMeaning | KeyEvaluationStats.cpp:48-54 | in the 24-key layout the adjacent figure sums exactly the adjacent-key cells |
| KeyStats.ChromaticKeysMeaning | KeyEvaluationStats.cpp:100-106 | in the 24-key layout the chromatic figure sums exactly the chromatic-key cells |
| KeyStats.RelativeKeys | KeyEvaluationStats.cpp:56-82 | an error exactly when there are not two modes; otherwise the two loops over wrapped and stepped diagonals sum exactly the relative-key cells |
| KeyStats.WrapStep | KeyEvaluationStats.cpp:64-73 | each entry of the wrapped diagonals adds its cells when its index is odd |
| KeyStats.StepStep | KeyEvaluationStats.cpp:63-80 | each entry of the diagonals ±7 adds its cells when its index is even |
| KeyStats.RelativeVisitedAll | KeyEvaluationStats.cpp:62-81 | after both loops every relative cell has been visited once |
| KeyStats.RelativeKeysMeaning | KeyEvaluationStats.cpp:56-82 | in the 24-key layout those cells are exactly a major key and its relative minor, or the reverse |
| KeyStats.ParallelKeys | KeyEvaluationStats.cpp:84-97 | an error exactly when there are not two modes; otherwise sums the cells (2i, 2i+1) and (2i+1, 2i) of every tonic |
| KeyStats.ParallelStep | KeyEvaluationStats.cpp:90-96 | each tonic adds its two parallel cells |
| KeyStats.CorrectKeysPerMode | KeyEvaluationStats.cpp:118-132 | per mode, column 0 holds the correct duration of its keys and column 1 their whole reference rows |
| KeyStats.ModesCoverCorrectKeys | KeyEvaluationStats.cpp:118-132 | the per-mode correct durations add up to the correct keys |
| KeyStats.ModesCoverKeyRows | KeyEvaluationStats.cpp:118-132 | the per-mode durations add up to the rows of all keys |
| KeyStats.ModeCorrectWithinDuration | KeyEvaluationStats.cpp:118-132 | for durations, each mode's correct entry lies between 0 and its duration entry |
| KeyStats.KeyPartition | KeyEvaluationStats.cpp:28-46 | keys block, deletions (last column), insertions (last row) and correct "no key" add up to the whole matrix |
| KeyStats.KeyRelationsDisjoint | KeyEvaluationStats.cpp:48-106 | a test key is in at most one of the relations same, adjacent, relative, parallel and chromatic to the reference key |
| KeyStats.KeyErrorsWithinBlock | KeyEvaluationStats.cpp:28-106 | for durations, the correct, adjacent, relative, parallel and chromatic figures together lie between 0 and the keys block |
| ChordStats.NewChordStats | ChordEvaluationStats.cpp:13-44 | the constructor's root and type loops fill onlyRoots and onlyTypes with the cell sums their reference definition names; correct is the trace and allWrong the rest of the corner |
| ChordStats.OnlyTypeOf | ChordEvaluationStats.cpp:30-39 | the (j, k) loop for type t sums exactly the cells with type t on both sides and different roots |
| ChordStats.RootBlockMeaning | ChordEvaluationStats.cpp:23-26 | a root block minus its diagonal is exactly its same-root, other-type cells |
| ChordStats.OnlyRootMeaning | ChordEvaluationStats.cpp:21-27 | onlyRootCorrect sums the same-root cells of the first twelve roots, which is all of them with twelve chromas |
| ChordStats.OnlyTypeMeaning | ChordEvaluationStats.cpp:28-40 | onlyTypeCorrect sums every cell with the same type and another root |
| ChordStats.AllWrongMeaning | ChordEvaluationStats.cpp:41-43 | allWrong is the other-root, other-type cells plus the roots the twelve-root loop skips; with twelve chromas it is exactly the first set and non-negative for durations |
| ChordStats.CellKinds | ChordEvaluationStats.cpp:21-43 | every cell is correct, same-root, same-type or all-wrong, and in exactly one of them |
| ChordStats.UniquesInRef | ChordEvaluationStats.cpp:71-74 | counts the chord columns of the corner with a positive cell, at most the number of chords |
| ChordStats.UniquesInTest | ChordEvaluationStats.cpp:76-79 | counts the chord rows of the corner with a positive cell, at most the number of chords |
| ChordStats.ChordPartition | ChordEvaluationStats.cpp:56-69 | chord corner, deletions (last row), insertions (last column) and correct "no chord" add up to the whole matrix |
| ChordStats.ChordDurationsCover | ChordEvaluationStats.cpp:81-89 | the reference-chord and reference-"no chord" durations add up to the whole matrix |
| Segmentation.Boundaries | SegmentationEvaluation.cpp:40-60 | Onset uses the onsets, Offset the offsets, Inner the onsets after the first, Outer the onsets plus the last offset; any other variant is an error |
| Segmentation.MinDist | SegmentationEvaluation.cpp:94-99 | the distance from a stamp to the nearest stamp of the other list |
| Segmentation.CountStamp | SegmentationEvaluation.cpp:94-100 | counting one more stamp keeps every per-tolerance counter equal to its hit count so far |
| Segmentation.CountRates | SegmentationEvaluation.cpp:91-115 | per tolerance, the fraction of stamps with a stamp of the other list strictly closer than it |
| Segmentation.SegmentationScores | SegmentationEvaluation.cpp:85-117 | recall and precision per tolerance, one entry per tolerance, all 0 when either list is empty |
| Segmentation.RateBounds | SegmentationEvaluation.cpp:91-115 | every recall and precision lies in [0, 1] |
| Segmentation.RateMono | SegmentationEvaluation.cpp:91-115 | a larger tolerance never lowers recall or precision |
| Segmentation.RateSelf | SegmentationEvaluation.cpp:93-112 | a non-empty list against itself has rate 1 for every positive tolerance |
| Segmentation.MaxOverlap | SegmentationEvaluation.cpp:125-133 | the largest overlap of a segment with any segment of the other sequence |
| Segmentation.SumExcess | SegmentationEvaluation.cpp:125-133 | sums, over the segments with a positive best overlap, the positive overlaps minus the best one |
| Segmentation.UnderSegmentation | SegmentationEvaluation.cpp:119-141 | 1 without test segments; otherwise the test segments' excess over the reference, divided by the last reference offset |
| Segmentation.OverSegmentation | SegmentationEvaluation.cpp:158-180 | 1 without reference segments; otherwise the reference segments' excess over the test, divided by the last reference offset |
| Segmentation.SegmentationNonNegative | SegmentationEvaluation.cpp:119-180 | both measures are non-negative when the last reference offset is positive |
| Segmentation.SelfSegmentation | SegmentationEvaluation.cpp:127-172 | a sequence of non-overlapping segments against itself has under = over = 0 and Hamming measure 1 |
| Segmentation.SegmentationEvaluation.constructor | SegmentationEvaluation.cpp:14-20 | keeps the variant and tolerances and starts with empty histories |
| Segmentation.SegmentationEvaluation.Evaluate | SegmentationEvaluation.cpp:22-68 | an unknown variant is an error and changes nothing; otherwise every history gets exactly one entry, and the Hamming entry is 1 − max(under, over) |
| Segmentation.SegmentationEvaluation.LastHammingMeasure | SegmentationEvaluation.cpp:80-83 | the last Hamming measure is one minus the larger of the last under- and over-segmentation |
| KeyScore.KeyIndex | SimilarityScoreKey.cpp:87-96 | 24 exactly for silence, otherwise 2 × circle steps from A plus the mode, below 25 |
| KeyScore.KeyLabels | SimilarityScoreKey.cpp:46-54 | 25 labels: label i < 24 has tonic circleOfFifths(A)[i / 2] and the major mode for even i, the natural minor mode for odd i, and label 24 is silence |
| KeyScore.LabelIndexRoundTrip | SimilarityScoreKey.cpp:46-96 | the index of label i is i |
| KeyScore.IndexLabelRoundTrip | SimilarityScoreKey.cpp:46-96 | the label at a key's index has the key's tonic and is major exactly when the key is; for silence and every major or natural minor key it is the key itself |
| KeyScore.SameKeyIndex | SimilarityScoreKey.cpp:87-96 | two keys share an index exactly when both are silence, or both have the same tonic and are both major or both not major |
| KeyScore.KeyPreset | SimilarityScoreKey.cpp:20-45 | Mirex and Binary select their tables; any other name is an error |
| KeyScore.SilenceAgainstKey | SimilarityScoreKey.cpp:67-71 | exactly one side silent scores 0 |
| KeyScore.SilenceAgainstSilence | SimilarityScoreKey.cpp:72-83 | silence against silence reads the first cell of the table |
| KeyScore.BinaryScore | SimilarityScoreKey.cpp:28-33 | under Binary the score is 1 iff the keys share an index (same tonic, both major or both not major, or both silence), otherwise 0; equal keys score 1 |
| KeyScore.MirexScore | SimilarityScoreKey.cpp:24-26 | under Mirex: 1 for the same tonic with both modes major or both not major, 0.5 for the same mode a fifth away, 0.3 for the relative key, 0.2 for the parallel key, 0 otherwise, for major and minor references alike |
| KeyScore.MirexSameMode | SimilarityScoreKey.cpp:25 | the same-mode row of the Mirex table |
| KeyScore.MirexOtherMode | SimilarityScoreKey.cpp:26 | the other-mode row of the Mirex table |
| KeyScore.SimilarityScoreKey.constructor | SimilarityScoreKey.cpp:20-55 | keeps the chosen table and the 25 labels |
| KeyScore.SimilarityScoreKey.Score | SimilarityScoreKey.cpp:62-85 | records both key indices and returns the table entry for the mode pair and clockwise distance, with the distance mirrored for a minor reference |
| KeyScore.NewSimilarityScoreKey | SimilarityScoreKey.cpp:20-45 | a scorer for Mirex and Binary, an error for any other name |
| NoteScore.ToSize | SimilarityScoreNote.cpp:45-46 | an index below the lowest note wraps around modulo 2^64 |
| NoteScore.NotePreset | SimilarityScoreNote.cpp:21-29 | only Piano is accepted, with 89 labels and lowest note 21 |
| NoteScore.NoteIndex | SimilarityScoreNote.cpp:45-46 | the MIDI number minus 21 for every note from 21 on |
| NoteScore.NoteLabels | SimilarityScoreNote.cpp:30-35 | label i < 88 is MIDI note 21 + i and the last label is silence |
| NoteScore.LabelIndexRoundTrip | SimilarityScoreNote.cpp:30-46 | the index of label i is i |
| NoteScore.SameIndexSameMidi | SimilarityScoreNote.cpp:45-48 | two notes share an index iff they share a MIDI number |
| NoteScore.BelowPianoWraps | SimilarityScoreNote.cpp:45-46 | every note k steps below MIDI note 21 (k ≤ 2^64) gets index 2^64 − k, outside the 89-label table unless k comes within 89 of 2^64 |
| NoteScore.SimilarityScoreNote.constructor | SimilarityScoreNote.cpp:19-36 | the Piano settings and label table |
| NoteScore.SimilarityScoreNote.Score | SimilarityScoreNote.cpp:43-56 | records both indices; the score is 1 iff they are equal, otherwise 0, and never −1 |
| NoteScore.NewSimilarityScoreNote | SimilarityScoreNote.cpp:19-29 | a scorer for Piano, an error for any other name |
| ChordScore.ParseMapping | SimilarityScoreChord.cpp:191-289 | each known mapping name selects its mapping; any other name is an error |
| ChordScore.Inversions | SimilarityScoreChord.cpp:520-524 | exactly the inversions of the given types |
| ChordScore.MappedTypesOf | SimilarityScoreChord.cpp:191-284 | the dictionary of a mapping: a single root-only type for none, bass and root, and never the "no chord" type outside the with-bass mappings |
| ChordScore.OutputLimit | SimilarityScoreChord.cpp:290-299 | the given types that are in the dictionary, plus "no chord" if given, and empty when nothing is given |
| ChordScore.SortedTypes | SimilarityScoreChord.cpp:300-321 | the dictionary in ascending order, each type once |
| ChordScore.MirexMapping | SimilarityScoreChord.cpp:503-518 | always major, minor or root-only |
| ChordScore.Mirex09Categories | SimilarityScoreChord.cpp:503-518 | major-like triads map to the major chord of their root, minor-like ones to the minor chord, and all others are unmappable; the categories are 2 × root index plus the major or minor type's place in the two-type dictionary, which is 0 for one and 1 for the other |
| ChordScore.CategoryRange | SimilarityScoreChord.cpp:440-467 | a category never exceeds the sentinel; silence and "no chord" are exactly the no-chord category; the sentinel marks exactly the unmappable chords |
| ChordScore.LabelCount | SimilarityScoreChord.cpp:300-321 | 12 × the number of mapped types plus one labels, with "no chord" last |
| ChordScore.TypeCategoryLabel | SimilarityScoreChord.cpp:440-467 | the category root × T + position labels the mapped chord |
| ChordScore.LabelOfCategory | SimilarityScoreChord.cpp:302-321 | the label at a mappable chord's category is its mapped chord |
| ChordScore.SameCategory | SimilarityScoreChord.cpp:440-467 | two mappable chords share a category iff they map to the same chord |
| ChordScore.RootIndexRoundTrip | SimilarityScoreChord.cpp:456-460 | a root's circle steps from A lead back to that root |
| ChordScore.Scored | SimilarityScoreChord.cpp:350-429 | every scoring gives a non-negative value, and exact and Mirex2010 give 0 or 1 |
| ChordScore.ScoreError | SimilarityScoreChord.cpp:336-342 | an error exactly for an unmappable test chord whose reference is inside the input limit |
| ChordScore.ScoreSkipped | SimilarityScoreChord.cpp:336-348 | −1 exactly when the reference is outside the input limit, or the test is mappable and the reference is unmappable or outside the output limit |
| ChordScore.ExactScore | SimilarityScoreChord.cpp:350-360 | under exact scoring a scored pair gets 1 iff both chords map to the same chord, otherwise 0 |
| ChordScore.ChordPreset | SimilarityScoreChord.cpp:25-183 | every known preset names a known mapping; any other name is an error |
| ChordScore.SimilarityScoreChord.constructor | SimilarityScoreChord.cpp:185-323 | the dictionary, output limit, category count and labels of the mapping |
| ChordScore.SimilarityScoreChord.Score | SimilarityScoreChord.cpp:330-438 | records both categories and mapped chords and returns the gated score |
| ChordScore.BuildLabels | SimilarityScoreChord.cpp:302-321 | the bass labels or one label per root and mapped type, then "no chord" |
| ChordScore.NewSimilarityScoreChord | SimilarityScoreChord.cpp:25-183 | a scorer for every known preset, an error for any other name; the scorer has the preset's scoring, input limit and mapping, the mapping's dictionary, the preset's output limit intersected with the dictionary (plus none), 12 × types + 1 categories and the category labels |
| Evaluator.Uniques | MusOOEvaluator.cpp:237-253 | the distinct keys of a sequence, each once |
| Evaluator.AbsentKeyDuration | MusOOEvaluator.cpp:237-253 | a key absent from the sequence has total duration 0 |
| Evaluator.AddOccurrence | MusOOEvaluator.cpp:240-252 | one occurrence adds its duration to its own key's entry only |
| Evaluator.FirstLongest | MusOOEvaluator.cpp:254-264 | the running maximum picks the first entry with the largest total |
| Evaluator.FindLongestKey | MusOOEvaluator.cpp:233-265 | the longest key of a non-empty sequence, keys compared whole (tonic and mode) |
| Evaluator.LongestKeyMeaning | MusOOEvaluator.cpp:233-265 | the longest key occurs in the sequence, no key (tonic and mode) sounds longer in total, and any other key that sounds as long occurs only after the longest key's first occurrence |
| Evaluator.LongestAgainst | MusOOEvaluator.cpp:256-263 | no key's total exceeds the longest key's, and a key with an equal total that appears first is the longest key itself |
| Evaluator.SumOfMatrices | MusOOEvaluator.cpp:389-392 | each cell of the global matrix is the sum of that cell over the files |
| Evaluator.TotalOfSum | MusOOEvaluator.cpp:387-392 | the cell sum of the global matrix is the sum of the files' matrix sums |
| Evaluator.AccumulateFiles | MusOOEvaluator.cpp:387-392 | the global matrix is the element-wise sum of the per-file matrices, the total duration is the sum of the durations and the weighted score the sum of score × duration |
| Evaluator.ScorePiece | MusOOEvaluator.cpp:405-408 | a piece is scored on the longest key of each side |
| Evaluator.GlobalKeyEvaluation | MusOOEvaluator.cpp:402-413 | each piece adds 1 to the cell (test index, reference index) and 1 to the count, and its score to the weighted score |
| Evaluator.EvaluatePiece | MusOOEvaluator.cpp:405-413 | one piece moves the global matrix and the weighted score one step along their definitions |
| Evaluator.CountMatrixTotal | MusOOEvaluator.cpp:410-413 | n counted pieces give a matrix whose cells add up to n |
| Evaluator.GlobalKeyMatrixTotal | MusOOEvaluator.cpp:410-413 | the global-key matrix sums to the number of pieces, the value added to the total duration |

## Left out

- I/O is not modelled. This covers command-line parsing, path handling, list and timing-file reading, CSV and report output, and the verbose per-segment output (PairwiseEvaluation.h:211-214 and PairwiseEvaluation.cpp).
- Floating point is modelled as exact `real`s. IEEE rounding, NaN and infinity are not. The default maximum reference duration (infinity) must be given as a real bound.
- The F-measure of the segmentation evaluation is not modelled. It is 0/0 (NaN) when precision and recall are both 0.
- The segmentation APIs that are declared but have no body (`addSequencePair`, the combined measures and averages, the segment counts) have nothing to model.
- KeyPreset (KeyScore.KeyPreset): the Lerdahl preset is not modelled. It normalises by the row mean and applies `exp`, which is transcendental floating point. The model requires a name other than "Lerdahl".
- NewSimilarityScoreKey (KeyScore.NewSimilarityScoreKey): requires a name other than "Lerdahl", for the same reason.
- The MusOO music library is not part of this model; these stand in for it:
  - clockwise circle steps are `Music.CircleStepsCW`;
  - a mode is major or one of the other modes, told apart by an index (`Music.Mode`); natural minor is the first of the others;
  - chord types are ordered by an integer rank, with major 0 and minor 1 first, in the order of the library's declarations; the ordering decides each type's place in a dictionary and so the category numbers (Mirex09Categories states its categories through that place rather than through the ranks);
  - silence has MIDI number 109 (`Music.SilentMidi`), the slot after the 88 piano keys, which is what puts it in the last note category (NoteScore.LabelIndexRoundTrip);
  - a chord of root and type has bass = root;
  - a silent key reads as tonic A in a mode that is not major;
  - the chord reductions and chroma counts are uninterpreted functions of a `ChordLibrary`.
- Chord labels are structured `CategoryLabel` values rather than their ChordQM string forms.
- Scored (ChordScore.Scored): the chroma-ratio scorings require the library cardinality of a true chord to be positive, which keeps their division defined.
- The similarity scorer in the pairwise evaluation is a function value returning the score and both categories. The object that records categories between calls is not modelled there.
- PairwiseEvaluation.Evaluation.AddSequencePair: requires non-empty reference and test sequences. The reference is read at its cursor for every segment, so an empty one is out of bounds. An empty test sequence is read only for a segment ending at or before time 0, since its end time is then 0; for a window starting at 0 or later it would score every segment against silence, which the model does not cover.
- AddSequencePair: the matrix is built in a local array and pushed once at the end. The source pushes first and writes through a reference, with the same final state.
- RelativeKeys (KeyStats.RelativeKeys): the result is stated only for at least 8 keys. With fewer keys the source reads Eigen diagonals that do not exist.
- NewKeyStats (KeyStats.NewKeyStats): excludes an empty matrix with a single chroma, which would give a corner of negative size.
- NewChordStats (ChordStats.NewChordStats): requires at least 12 chromas. The root loop always runs over twelve roots and would write outside a shorter array.
- UnderSegmentation and OverSegmentation (Segmentation.UnderSegmentation, Segmentation.OverSegmentation): require a non-zero last reference offset when the measure divides by it.
- Evaluate (Segmentation.SegmentationEvaluation.Evaluate): requires both sequences to be empty or both non-empty, because each measure reads the largest overlap with the other side.
- AccumulateFiles (Evaluator.AccumulateFiles): takes each file's matrix, duration and overlap score as inputs. Their computation is the pairwise evaluation above.
- GlobalKeyEvaluation (Evaluator.GlobalKeyEvaluation): the global matrix has the key scorer's 25 × 25 labels.
- Cells outside a matrix read as 0 (`Matrices.At`). Eigen would assert there.
