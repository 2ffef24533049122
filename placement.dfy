/**
 * Where a parsed sample lands: the dataset's fixed shape, the fold index each
 * split computes from the fold field, numpy's reading of that index, and the
 * slot `(sample - 1) % SAMPLES_PER_FOLD`.
 */
module Placement {
  import opened Wrappers
  import opened FileName

  /** The category labels the dataset uses; the loader never checks a file's category against them. */
  const SAMPLE_CATEGORIES: seq<nat> := [0, 1, 2, 3]

  /** The shape of one spectrogram (time-frequency bins). */
  const SAMPLE_HEIGHT: nat := 128
  const SAMPLE_WIDTH: nat := 259

  const TRAINING_FOLDS: nat := 9
  const VALIDATION_FOLDS: nat := 1
  const SAMPLES_PER_FOLD: nat := 16

  /** The two directory trees the loader walks, each filling its own pair of tables. */
  datatype Split = Training | Validation

  /** The length of a split's fold axis. */
  function FoldCount(split: Split): (n: nat)
    ensures n > 0
    ensures n == TRAINING_FOLDS || n == VALIDATION_FOLDS
  {
    match split
    case Training => TRAINING_FOLDS
    case Validation => VALIDATION_FOLDS
  }

  /**
   * The fold index the loader computes before indexing: `fold - 1` for
   * training files, `fold - TRAINING_FOLDS - 1` for validation files, whose
   * fold numbers continue after the training folds.
   */
  function RawFoldIndex(split: Split, fold: nat): (i: int)
    ensures split == Training ==> i + 1 == fold
    ensures split == Validation ==> i + TRAINING_FOLDS + 1 == fold
  {
    match split
    case Training => fold - 1
    case Validation => fold - TRAINING_FOLDS - 1
  }

  /**
   * numpy's integer indexing along an axis of length n: an index in [0, n) is
   * itself, one in [-n, 0) counts back from the end, and anything else raises
   * IndexError (None).
   */
  function AxisIndex(i: int, n: nat): (r: Option<nat>)
    ensures r.Some? <==> -(n as int) <= i < n
    ensures r.Some? ==> r.value < n && (r.value == i || r.value == i + n)
  {
    if 0 <= i < n then Some(i)
    else if -(n as int) <= i < 0 then Some(i + n)
    else None
  }

  /**
   * The slot of a sample number: Python's `(sample - 1) % SAMPLES_PER_FOLD`.
   * Python's `%` takes the divisor's sign, and Dafny's `%` is never negative,
   * so for the positive divisor the two agree, including sample 0 (index -1).
   */
  function Slot(sample: nat): (s: nat)
    ensures s < SAMPLES_PER_FOLD
    ensures (sample - 1 - s) % SAMPLES_PER_FOLD == 0
  {
    (sample - 1) % SAMPLES_PER_FOLD
  }

  /** Sample numbers 1..SAMPLES_PER_FOLD fill the slots in order. */
  lemma SlotOfFirstRound(sample: nat)
    requires 1 <= sample <= SAMPLES_PER_FOLD
    ensures Slot(sample) == sample - 1
  {
  }

  /** Sample 0 gives index -1, which Python's `%` sends to the last slot. */
  lemma SlotOfZero()
    ensures Slot(0) == SAMPLES_PER_FOLD - 1
  {
  }

  /** Two sample numbers share a slot exactly when they differ by a multiple of SAMPLES_PER_FOLD. */
  lemma SlotsCollide(a: nat, b: nat)
    ensures Slot(a) == Slot(b) <==> (a - b) % SAMPLES_PER_FOLD == 0
  {
  }

  /** A (fold, slot) position of a split's tables. */
  datatype Cell = Cell(fold: nat, slot: nat)

  /** A cell exists in a split's tables. */
  predicate InTable(split: Split, cell: Cell) {
    cell.fold < FoldCount(split) && cell.slot < SAMPLES_PER_FOLD
  }

  /**
   * The cell a file with the given fields is written to, or None when numpy
   * rejects the fold index. The slot index is always in range.
   */
  function Locate(split: Split, fields: Fields): (r: Option<Cell>)
    ensures r.Some? ==> InTable(split, r.value) && r.value.slot == Slot(fields.sample)
    ensures r.Some? <==> AxisIndex(RawFoldIndex(split, fields.fold), FoldCount(split)).Some?
  {
    match AxisIndex(RawFoldIndex(split, fields.fold), FoldCount(split))
    case None => None
    case Some(f) => Some(Cell(f, Slot(fields.sample)))
  }

  /** The fold fields each split's directory is meant to hold. */
  predicate DocumentedFold(split: Split, fold: nat) {
    match split
    case Training => 1 <= fold <= TRAINING_FOLDS
    case Validation => TRAINING_FOLDS < fold <= TRAINING_FOLDS + VALIDATION_FOLDS
  }

  /**
   * A documented fold field lands, without any wrap-around, at its
   * zero-based fold index within the split: training fold f at f - 1,
   * validation fold f at f - TRAINING_FOLDS - 1.
   */
  lemma LocateDocumentedFold(split: Split, fields: Fields)
    requires DocumentedFold(split, fields.fold)
    ensures Locate(split, fields) == Some(Cell(RawFoldIndex(split, fields.fold), Slot(fields.sample)))
    ensures RawFoldIndex(split, fields.fold) >= 0
  {
  }

  /**
   * Exactly which fold fields each split accepts. Besides the documented
   * ones, numpy's negative indexing also admits fold 0 in training (it lands
   * in the last training fold) and fold TRAINING_FOLDS in validation (the last
   * training fold number, landing in the last validation fold).
   */
  lemma AcceptedFolds(split: Split, fields: Fields)
    ensures Locate(split, fields).Some? <==>
      DocumentedFold(split, fields.fold) ||
      (split == Training && fields.fold == 0) ||
      (split == Validation && fields.fold == TRAINING_FOLDS)
    ensures split == Training && fields.fold == 0 ==>
      Locate(split, fields) == Some(Cell(TRAINING_FOLDS - 1, Slot(fields.sample)))
    ensures split == Validation && fields.fold == TRAINING_FOLDS ==>
      Locate(split, fields) == Some(Cell(VALIDATION_FOLDS - 1, Slot(fields.sample)))
  {
  }

  /**
   * Every cell of a split's tables is reachable: the file named with fold
   * field `fold + 1` (shifted by TRAINING_FOLDS for validation) and sample
   * `slot + 1` is written there.
   */
  lemma EveryCellReachable(split: Split, cell: Cell, category: nat)
    requires InTable(split, cell)
    ensures var fold := if split == Training then cell.fold + 1 else cell.fold + TRAINING_FOLDS + 1;
      Locate(split, Fields(cell.slot + 1, fold, category)) == Some(cell)
  {
  }
}
