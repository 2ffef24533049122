/**
 * The dataset object: four fixed-shape tables allocated zero-filled by the
 * constructor and filled cell by cell by `Load`.
 */
module Dataset {
  import opened Wrappers
  import opened Placement
  import opened Ingest

  /**
   * The writes of `load`'s loop over one split, given each walked file's
   * outcome in traversal order: each successful outcome overwrites, in place,
   * its cell of the input table with its spectrogram and of the label table
   * with its category; the first failing outcome stops the loop and is
   * reported, and the writes made before it stay. Afterwards every cell
   * holds the values of the last completed write into it, or what it held
   * before when no write touched it.
   */
  method WriteOutcomes(x: array2<Spectrogram>, y: array2<int>, outcomes: seq<Outcome>)
    returns (failure: Option<LoadError>)
    requires x.Length0 == y.Length0 && x.Length1 == y.Length1
    requires forall i :: 0 <= i < |outcomes| && outcomes[i].Success? ==>
      outcomes[i].value.cell.fold < x.Length0 && outcomes[i].value.cell.slot < x.Length1
    modifies x, y
    ensures failure.None? <==> Completed(outcomes) == |outcomes|
    ensures failure.Some? ==> outcomes[Completed(outcomes)] == Failure(failure.value)
    ensures forall i, j :: 0 <= i < x.Length0 && 0 <= j < x.Length1 ==>
      && x[i, j] == SpectrogramAfter(Applied(outcomes), Cell(i, j), old(x[i, j]))
      && y[i, j] == LabelAfter(Applied(outcomes), Cell(i, j), old(y[i, j]))
  {
    ghost var done: seq<Write> := [];
    var k := 0;
    while k < |outcomes|
      invariant k <= Completed(outcomes)
      invariant |done| == k && forall i :: 0 <= i < k ==> outcomes[i] == Success(done[i])
      invariant forall i, j :: 0 <= i < x.Length0 && 0 <= j < x.Length1 ==>
        x[i, j] == SpectrogramAfter(done, Cell(i, j), old(x[i, j]))
      invariant forall i, j :: 0 <= i < y.Length0 && 0 <= j < y.Length1 ==>
        y[i, j] == LabelAfter(done, Cell(i, j), old(y[i, j]))
    {
      match outcomes[k]
      case Failure(e) =>
        AppliedUpTo(outcomes, done);
        return Some(e);
      case Success(w) =>
        CompletedStep(outcomes, k);
        x[w.cell.fold, w.cell.slot] := w.spectrogram;
        y[w.cell.fold, w.cell.slot] := w.category;
        forall i, j | 0 <= i < x.Length0 && 0 <= j < x.Length1
          ensures x[i, j] == SpectrogramAfter(done + [w], Cell(i, j), old(x[i, j]))
          ensures y[i, j] == LabelAfter(done + [w], Cell(i, j), old(y[i, j]))
        {
          AfterStep(done, w, Cell(i, j), old(y[i, j]), old(x[i, j]));
        }
        PrefixExtend(outcomes, done, w);
        done := done + [w];
        k := k + 1;
    }
    AppliedUpTo(outcomes, done);
    return None;
  }

  /**
   * `load`'s loop over one split's walked files: every file's name is parsed
   * and placed (Target), then the outcomes are written in traversal order.
   * Parsing has no effect on the tables, so the state reached is that of the
   * interleaved loop: the writes of the files before the first failing one.
   */
  method PlaceFiles(x: array2<Spectrogram>, y: array2<int>, split: Split, files: seq<SampleFile>)
    returns (failure: Option<LoadError>)
    requires x.Length0 == y.Length0 == FoldCount(split)
    requires x.Length1 == y.Length1 == SAMPLES_PER_FOLD
    modifies x, y
    ensures var outcomes := Outcomes(split, files);
      && (failure.None? <==> Completed(outcomes) == |files|)
      && (failure.Some? ==> outcomes[Completed(outcomes)] == Failure(failure.value))
    ensures forall i, j :: 0 <= i < x.Length0 && 0 <= j < x.Length1 ==>
      && x[i, j] == SpectrogramAfter(Applied(Outcomes(split, files)), Cell(i, j), old(x[i, j]))
      && y[i, j] == LabelAfter(Applied(Outcomes(split, files)), Cell(i, j), old(y[i, j]))
  {
    var outcomes := Outcomes(split, files);
    OutcomesInTable(split, files);
    failure := WriteOutcomes(x, y, outcomes);
  }

  /** The loaded dataset: inputs and labels of the training folds and of the validation folds. */
  class EARDataset {
    const trainX: array2<Spectrogram>
    const trainY: array2<int>
    const testX: array2<Spectrogram>
    const testY: array2<int>

    /** The tables have the dataset's fixed shape and are four distinct objects. */
    ghost predicate Valid()
      reads this
    {
      && trainX.Length0 == trainY.Length0 == TRAINING_FOLDS
      && testX.Length0 == testY.Length0 == VALIDATION_FOLDS
      && trainX.Length1 == trainY.Length1 == testX.Length1 == testY.Length1 == SAMPLES_PER_FOLD
      && trainX != testX
      && trainY != testY
    }

    /** Allocates the four tables with every input cell a zero spectrogram and every label 0. */
    constructor ()
      ensures Valid()
      ensures fresh(trainX) && fresh(trainY) && fresh(testX) && fresh(testY)
      ensures forall i, j :: 0 <= i < TRAINING_FOLDS && 0 <= j < SAMPLES_PER_FOLD ==>
        trainX[i, j] == ZERO_SPECTROGRAM && trainY[i, j] == 0
      ensures forall i, j :: 0 <= i < VALIDATION_FOLDS && 0 <= j < SAMPLES_PER_FOLD ==>
        testX[i, j] == ZERO_SPECTROGRAM && testY[i, j] == 0
    {
      trainX := new Spectrogram[TRAINING_FOLDS, SAMPLES_PER_FOLD]((i, j) => ZERO_SPECTROGRAM);
      trainY := new int[TRAINING_FOLDS, SAMPLES_PER_FOLD]((i, j) => 0);
      testX := new Spectrogram[VALIDATION_FOLDS, SAMPLES_PER_FOLD]((i, j) => ZERO_SPECTROGRAM);
      testY := new int[VALIDATION_FOLDS, SAMPLES_PER_FOLD]((i, j) => 0);
    }

    /**
     * `load`: the training files, in traversal order, then the validation
     * files. Training files write only the training tables and validation
     * files only the validation tables. A failure in the training pass stops
     * everything, so the validation tables are then untouched.
     */
    method Load(trainingFiles: seq<SampleFile>, validationFiles: seq<SampleFile>)
      returns (failure: Option<LoadError>)
      requires Valid()
      modifies trainX, trainY, testX, testY
      ensures Valid()
      ensures forall i, j :: 0 <= i < TRAINING_FOLDS && 0 <= j < SAMPLES_PER_FOLD ==>
        && trainX[i, j] == SpectrogramAfter(Applied(Outcomes(Training, trainingFiles)), Cell(i, j), old(trainX[i, j]))
        && trainY[i, j] == LabelAfter(Applied(Outcomes(Training, trainingFiles)), Cell(i, j), old(trainY[i, j]))
      ensures var trained := Completed(Outcomes(Training, trainingFiles));
        trained < |trainingFiles| ==>
          && failure == Some(Outcomes(Training, trainingFiles)[trained].error)
          && unchanged(testX, testY)
      ensures var trained := Completed(Outcomes(Training, trainingFiles));
        var validated := Completed(Outcomes(Validation, validationFiles));
        trained == |trainingFiles| ==>
          && (failure.None? <==> validated == |validationFiles|)
          && (failure.Some? ==> Outcomes(Validation, validationFiles)[validated] == Failure(failure.value))
          && forall i, j :: 0 <= i < VALIDATION_FOLDS && 0 <= j < SAMPLES_PER_FOLD ==>
            && testX[i, j] == SpectrogramAfter(Applied(Outcomes(Validation, validationFiles)), Cell(i, j), old(testX[i, j]))
            && testY[i, j] == LabelAfter(Applied(Outcomes(Validation, validationFiles)), Cell(i, j), old(testY[i, j]))
    {
      failure := PlaceFiles(trainX, trainY, Training, trainingFiles);
      if failure.None? {
        failure := PlaceFiles(testX, testY, Validation, validationFiles);
      }
    }
  }
}
