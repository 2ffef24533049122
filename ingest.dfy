/**
 * What one pass of the loader over a split's files does, stated on values:
 * which file each file writes where, how far the pass gets before Python
 * would raise, and which file's values each cell holds afterwards.
 */
module Ingest {
  import opened Wrappers
  import opened FileName
  import opened Placement

  /**
   * One spectrogram as `np.load` returns it. Its content is never inspected
   * by the loader; the model only moves it from file to cell.
   */
  datatype Spectrogram = Spectrogram(bins: seq<seq<real>>)

  /** What `np.zeros` puts in every input cell: a SAMPLE_HEIGHT x SAMPLE_WIDTH block of 0.0. */
  const ZERO_SPECTROGRAM: Spectrogram :=
    Spectrogram(seq(SAMPLE_HEIGHT, _ => seq(SAMPLE_WIDTH, _ => 0.0)))

  /** A walked file: its base name and the payload loading it yields. */
  datatype SampleFile = SampleFile(name: string, spectrogram: Spectrogram)

  /** What makes the loader raise on a file: a bad name (ValueError) or a fold index numpy rejects (IndexError). */
  datatype LoadError =
    | BadName(name: string, reason: ParseError)
    | FoldOutOfRange(name: string, index: int)

  /** What one file puts in its split's tables: its label and its spectrogram, both at one cell. */
  datatype Write = Write(cell: Cell, category: nat, spectrogram: Spectrogram)

  /** What loading one file does: the write it makes, or the error Python raises on it. */
  type Outcome = Result<Write, LoadError>

  /**
   * The write a file makes in the given split: parse its name, then place it.
   * A name that parses, at a fold numpy accepts, writes its category and
   * spectrogram at the located cell; anything else is the error Python raises.
   */
  function Target(split: Split, file: SampleFile): (r: Outcome)
    ensures r.Success? <==> ParseName(file.name).Success? && Locate(split, ParseName(file.name).value).Some?
    ensures r.Success? ==> Some(r.value.cell) == Locate(split, ParseName(file.name).value)
    ensures r.Success? ==>
      && InTable(split, r.value.cell)
      && r.value.cell.slot == Slot(ParseName(file.name).value.sample)
      && r.value.category == ParseName(file.name).value.category
      && r.value.spectrogram == file.spectrogram
    ensures ParseName(file.name).Failure? ==> r == Failure(BadName(file.name, ParseName(file.name).error))
    ensures ParseName(file.name).Success? && Locate(split, ParseName(file.name).value).None? ==>
      r == Failure(FoldOutOfRange(file.name, RawFoldIndex(split, ParseName(file.name).value.fold)))
  {
    match ParseName(file.name)
    case Failure(e) => Failure(BadName(file.name, e))
    case Success(fields) =>
      match Locate(split, fields)
      case None => Failure(FoldOutOfRange(file.name, RawFoldIndex(split, fields.fold)))
      case Some(cell) => Success(Write(cell, fields.category, file.spectrogram))
  }

  /** The outcome of each walked file, in traversal order. */
  function Outcomes(split: Split, files: seq<SampleFile>): seq<Outcome> {
    seq(|files|, i requires 0 <= i < |files| => Target(split, files[i]))
  }

  /** Every write a split's files make lies inside that split's tables. */
  lemma OutcomesInTable(split: Split, files: seq<SampleFile>)
    ensures |Outcomes(split, files)| == |files|
    ensures forall i :: 0 <= i < |files| && Outcomes(split, files)[i].Success? ==>
      InTable(split, Outcomes(split, files)[i].value.cell)
  {
  }

  /**
   * How many files the pass writes before it raises: the index of the first
   * failing outcome, or all of them.
   */
  function Completed(outcomes: seq<Outcome>): (k: nat)
    ensures k <= |outcomes|
    ensures forall i :: 0 <= i < k ==> outcomes[i].Success?
    ensures k < |outcomes| ==> outcomes[k].Failure?
    decreases |outcomes|
  {
    if outcomes == [] || outcomes[0].Failure? then 0
    else 1 + Completed(outcomes[1..])
  }

  /** A successful outcome at the frontier of the completed prefix extends that prefix. */
  lemma CompletedStep(outcomes: seq<Outcome>, k: nat)
    requires k <= Completed(outcomes) && k < |outcomes| && outcomes[k].Success?
    ensures k + 1 <= Completed(outcomes)
  {
  }

  /** The writes the pass makes, in order: those of the files before the first failure. */
  function Applied(outcomes: seq<Outcome>): (ws: seq<Write>)
    ensures |ws| == Completed(outcomes)
    ensures forall i :: 0 <= i < |ws| ==> outcomes[i] == Success(ws[i])
  {
    seq(Completed(outcomes), i requires 0 <= i < Completed(outcomes) => outcomes[i].value)
  }

  /** Records one more successful outcome at the end of the writes made so far. */
  lemma PrefixExtend(outcomes: seq<Outcome>, done: seq<Write>, w: Write)
    requires |done| < |outcomes| && outcomes[|done|] == Success(w)
    requires forall i :: 0 <= i < |done| ==> outcomes[i] == Success(done[i])
    ensures forall i :: 0 <= i < |done + [w]| ==> outcomes[i] == Success((done + [w])[i])
  {
  }

  /** The writes of the completed prefix are exactly the writes of its successful outcomes. */
  lemma AppliedUpTo(outcomes: seq<Outcome>, done: seq<Write>)
    requires |done| <= |outcomes|
    requires forall i :: 0 <= i < |done| ==> outcomes[i] == Success(done[i])
    requires |done| == |outcomes| || outcomes[|done|].Failure?
    ensures Applied(outcomes) == done
  {
    assert Completed(outcomes) == |done|;
  }

  /** The last write into the cell, or None when no write touches it. */
  function LastWrite(writes: seq<Write>, cell: Cell): (r: Option<Write>)
    ensures r.Some? ==> r.value.cell == cell
    decreases |writes|
  {
    if writes == [] then None
    else if writes[|writes| - 1].cell == cell then Some(writes[|writes| - 1])
    else LastWrite(writes[..|writes| - 1], cell)
  }

  /** One more write becomes the last write of its own cell and leaves every other cell's alone. */
  lemma {:induction false} LastWriteStep(writes: seq<Write>, w: Write, cell: Cell)
    ensures LastWrite(writes + [w], cell) == if w.cell == cell then Some(w) else LastWrite(writes, cell)
  {
    assert (writes + [w])[..|writes|] == writes;
  }

  /**
   * Last write wins: when a write touches the cell and no later write does,
   * it is the cell's last write, whatever came before it.
   */
  lemma {:induction false} LastWriteWins(writes: seq<Write>, k: nat, cell: Cell)
    requires k < |writes| && writes[k].cell == cell
    requires forall j :: k < j < |writes| ==> writes[j].cell != cell
    ensures LastWrite(writes, cell) == Some(writes[k])
    decreases |writes|
  {
    if k < |writes| - 1 {
      var init := writes[..|writes| - 1];
      LastWriteWins(init, k, cell);
    }
  }

  /** A cell that no write touches has no last write. */
  lemma {:induction false} UnwrittenCell(writes: seq<Write>, cell: Cell)
    requires forall j :: 0 <= j < |writes| ==> writes[j].cell != cell
    ensures LastWrite(writes, cell) == None
    decreases |writes|
  {
    if writes != [] {
      var init := writes[..|writes| - 1];
      UnwrittenCell(init, cell);
    }
  }

  /** The label a cell holds after the writes, over a table whose cell held `prior`. */
  function LabelAfter(writes: seq<Write>, cell: Cell, prior: int): int {
    match LastWrite(writes, cell)
    case None => prior
    case Some(w) => w.category
  }

  /** The spectrogram a cell holds after the writes, over a table whose cell held `prior`. */
  function SpectrogramAfter(writes: seq<Write>, cell: Cell, prior: Spectrogram): Spectrogram {
    match LastWrite(writes, cell)
    case None => prior
    case Some(w) => w.spectrogram
  }

  /** After one more write, its own cell holds its values and every other cell what it held before. */
  lemma AfterStep(writes: seq<Write>, w: Write, cell: Cell, priorLabel: int, prior: Spectrogram)
    ensures LabelAfter(writes + [w], cell, priorLabel) ==
      if w.cell == cell then w.category else LabelAfter(writes, cell, priorLabel)
    ensures SpectrogramAfter(writes + [w], cell, prior) ==
      if w.cell == cell then w.spectrogram else SpectrogramAfter(writes, cell, prior)
  {
    LastWriteStep(writes, w, cell);
  }

  /**
   * A well-formed name `<n>-<f>-<c>` plus any four-character extension is
   * written where Locate puts `(n, f, c)`, with label c and the file's
   * spectrogram; a fold numpy rejects stops the pass at this file.
   */
  lemma TargetOfFormattedName(split: Split, fields: Fields, ext: string, p: Spectrogram)
    requires |ext| == EXTENSION_LENGTH
    ensures Target(split, SampleFile(FormatStem(fields) + ext, p)) ==
      match Locate(split, fields)
      case Some(cell) => Success(Write(cell, fields.category, p))
      case None => Failure(FoldOutOfRange(FormatStem(fields) + ext, RawFoldIndex(split, fields.fold)))
  {
    ParseFormattedName(fields, ext);
  }

  /**
   * Two files of one fold whose sample numbers differ by SAMPLES_PER_FOLD
   * write the same cell, and when both are written in that order the cell
   * ends with the second file's label and spectrogram: sample numbers 1 and
   * 17 of a fold both land in slot 0. No collision is reported. (The files
   * named `FormatStem(first)` and `FormatStem(second)` plus an extension make
   * exactly these writes: TargetOfDocumentedName.)
   */
  lemma SampleCollision(split: Split, first: Fields, secondCategory: nat, p: Spectrogram, q: Spectrogram,
                        priorLabel: int, prior: Spectrogram)
    requires DocumentedFold(split, first.fold)
    ensures var second := Fields(first.sample + SAMPLES_PER_FOLD, first.fold, secondCategory);
      var cell := Cell(RawFoldIndex(split, first.fold), Slot(first.sample));
      var writes := [Write(cell, first.category, p), Write(cell, secondCategory, q)];
      && Locate(split, first) == Some(cell)
      && Locate(split, second) == Some(cell)
      && LabelAfter(writes, cell, priorLabel) == secondCategory
      && SpectrogramAfter(writes, cell, prior) == q
  {
    var second := Fields(first.sample + SAMPLES_PER_FOLD, first.fold, secondCategory);
    var cell := Cell(RawFoldIndex(split, first.fold), Slot(first.sample));
    LocateDocumentedFold(split, first);
    LocateDocumentedFold(split, second);
    assert Slot(second.sample) == Slot(first.sample);
    LastWriteWins([Write(cell, first.category, p), Write(cell, secondCategory, q)], 1, cell);
  }

  /**
   * A well-formed name at a documented fold is written at its zero-based
   * fold and slot. The category is taken from the name as written and never
   * checked against SAMPLE_CATEGORIES: whatever category it carries is the
   * label written.
   */
  lemma TargetOfDocumentedName(split: Split, fields: Fields, ext: string, p: Spectrogram)
    requires |ext| == EXTENSION_LENGTH
    requires DocumentedFold(split, fields.fold)
    ensures Target(split, SampleFile(FormatStem(fields) + ext, p)) ==
      Success(Write(Cell(RawFoldIndex(split, fields.fold), Slot(fields.sample)), fields.category, p))
  {
    TargetOfFormattedName(split, fields, ext, p);
    LocateDocumentedFold(split, fields);
  }

  /** A name with only two dash-separated fields stops the pass with a field-count error. */
  lemma TwoFieldNameRejected(split: Split, a: nat, b: nat, ext: string, p: Spectrogram)
    requires |ext| == EXTENSION_LENGTH
    ensures var name := Decimal(a) + [DELIMITER] + Decimal(b) + ext;
      Target(split, SampleFile(name, p)) == Failure(BadName(name, WrongFieldCount(2)))
  {
    var parts := [Decimal(a), Decimal(b)];
    var stem := Decimal(a) + [DELIMITER] + Decimal(b);
    assert Join(parts, DELIMITER) == stem by {
      assert parts[1..] == [Decimal(b)];
    }
    SplitOfJoin(parts, DELIMITER);
    StemOfExtended(stem, ext);
  }
}
