# EAR dataset loader, modelled in Dafny

`EARDataset` (dataset.py) holds the EAR audio dataset as four fixed-shape
tables:

- `train_x` holds TRAINING_FOLDS x SAMPLES_PER_FOLD spectrograms of 128 x 259.
- `train_y` holds the matching labels.
- `test_x` and `test_y` are the same for the VALIDATION_FOLDS validation folds.

The constructor allocates all four zero-filled. `load` walks a training
directory and then a validation directory. Each file is named
`<sample>-<fold>-<category>.npy`. For each file, `load`:

1. strips the four-character extension and splits the rest on `-` into
   exactly three integers;
2. turns the fold field into a zero-based fold index: `fold - 1` for
   training, `fold - TRAINING_FOLDS - 1` for validation;
3. turns the sample number into a slot, `(sample - 1) % SAMPLES_PER_FOLD`;
4. overwrites that cell of the inputs table with the file's spectrogram and
   that cell of the labels table with the category.

The model keeps that structure:

- `FileName` (filename.dfy) parses a name the way Python does. It strips the
  extension with `file[:-4]` and splits with `str.split('-')`. The split must
  give exactly three pieces, and `int` must accept each one. Otherwise Python
  raises `ValueError`, which the model reports as `ParseError`.
- `Placement` (placement.dfy) holds the constants, the fold arithmetic and the
  slot arithmetic. It also models numpy's indexing of the fold axis. An index
  in `[-n, n)` is accepted, and a negative one counts from the end. Any other
  index raises `IndexError`.
- `Ingest` (ingest.dfy) states one pass over a split's files on values:
  - the outcome of each file (`Target`);
  - how many files are written before the first error (`Completed`);
  - which write each cell ends up with (`LastWrite`: the last write wins).
- `Dataset` (dataset.dfy) has the class with its four `array2` tables.
  - The constructor fills them with zeros.
  - `Load` runs one loop per split (`PlaceFiles`), writing the arrays in place.
  - Each loop is proved to leave every cell holding the value the `Ingest`
    functions predict.
  - An exception in Python becomes a returned `LoadError`. The writes made
    before it stay, as they do in Python. A training error means the
    validation tables are never touched.

The fold and sample fields of a name are 1-based. The code subtracts 1
from each before using it as an index, and the validation fold field also
loses TRAINING_FOLDS, so validation folds are numbered after the training
folds. The model keeps these offsets exactly as the code writes them.

## Model

| member | source | states |
|---|---|---|
| FileName.Stem | dataset.py:41 | `file[:-4]`: the name minus its last four characters, or empty for a name of four characters or fewer |
| FileName.StemOfExtended | dataset.py:41 | stripping a four-character extension gives back the stem it was added to |
| FileName.SplitOn | dataset.py:41 | `str.split` on the delimiter always yields at least one piece |
| FileName.SplitOnJoins | dataset.py:41 | no piece of the split contains the delimiter, and joining the pieces with it gives back the string |
| FileName.SplitOnPrefix | dataset.py:41 | splitting a delimiter-free prefix followed by a rest: the prefix joins the rest's first piece |
| FileName.SplitOfJoin | dataset.py:41 | splitting the join of delimiter-free pieces gives back exactly those pieces |
| FileName.ParseInt | dataset.py:42 | `int` succeeds exactly on a non-empty string of decimal digits |
| FileName.Decimal | dataset.py:42 | the canonical decimal text of a number: digits only, no delimiter, no leading zero |
| FileName.ParseIntOfDecimal | dataset.py:42 | `int` of a number's decimal text is that number |
| FileName.LeadingZeroIgnored | dataset.py:42 | `int` ignores a leading zero, so `"07"` and `"7"` parse to the same field |
| FileName.NameParts | dataset.py:41 | the pieces of the stem; there is at least one |
| FileName.ParseName | dataset.py:41-42 | success exactly when the stem splits into three decimal pieces, each field is that piece's value; otherwise the first ValueError Python raises: a wrong piece count (checked first, by the unpack) with that count, else the leftmost non-integer piece |
| FileName.ParsedStem | dataset.py:41-42 | a name that parses has the stem `a-b-c` of three decimal pieces whose values are the parsed sample, fold and category |
| FileName.ParseFormattedName | dataset.py:41-42 | a name built as `<sample>-<fold>-<category>` plus any four-character extension parses back to those three fields |
| Placement.FoldCount | dataset.py:19-20 | a split's fold count: TRAINING_FOLDS for training and VALIDATION_FOLDS for validation, both positive |
| Placement.RawFoldIndex | dataset.py:42-59 | the zero-based fold index before numpy sees it: the fold field minus 1 for training (line 42), minus TRAINING_FOLDS minus 1 for validation (line 59) |
| Placement.AxisIndex | dataset.py:48 | numpy accepts an index exactly when it is in `[-n, n)`, and the position is the index or the index plus n, always below n |
| Placement.Slot | dataset.py:42 | `(sample - 1) % SAMPLES_PER_FOLD` is a valid slot that is congruent to sample - 1 |
| Placement.SlotOfFirstRound | dataset.py:42 | samples 1..SAMPLES_PER_FOLD fill slots 0..SAMPLES_PER_FOLD-1 in order |
| Placement.SlotOfZero | dataset.py:42 | sample 0 gives index -1, which Python's `%` sends to the last slot |
| Placement.SlotsCollide | dataset.py:48 | two samples share a slot exactly when they differ by a multiple of SAMPLES_PER_FOLD |
| Placement.Locate | dataset.py:48-49 | the cell a file is written to is inside its split's tables and at its sample's slot; it exists exactly when numpy accepts the fold index |
| Placement.LocateDocumentedFold | dataset.py:42-48 | a fold field in the split's documented range lands at its zero-based index without wrap-around |
| Placement.AcceptedFolds | dataset.py:42-66 | the exact set of accepted fold fields: the documented ones, plus training fold 0 landing in the last training fold and validation fold TRAINING_FOLDS landing in the last validation fold |
| Placement.EveryCellReachable | dataset.py:42-66 | every cell of either split's tables is the target of some file name |
| Ingest.Target | dataset.py:41-49 | a file writes exactly when its name parses and numpy accepts its fold: at the cell Locate gives for the parsed fields (so any spelling of the fields, leading zeros included, lands at fold index and slot of their values), inside the tables, with its category and spectrogram; a name that does not parse fails with its parse error (ValueError); a parsed name at a fold numpy rejects fails with the rejected raw fold index (IndexError) |
| Ingest.OutcomesInTable | dataset.py:37-49 | every write of a split's files lies inside that split's tables |
| Ingest.Completed | dataset.py:37-49 | the pass writes every file before the first failing one, and stops at that one |
| Ingest.CompletedStep | dataset.py:37-49 | a successful file at the edge of the written prefix extends that prefix |
| Ingest.Applied | dataset.py:37-49 | the writes the pass makes, in order: those of the files before the first failure |
| Ingest.PrefixExtend | dataset.py:37-49 | adding one more successful file's write keeps the record of the writes made so far |
| Ingest.AppliedUpTo | dataset.py:37-49 | a run of successes that ends at a failure or at the end is exactly the writes the pass makes |
| Ingest.LastWrite | dataset.py:48-49 | a cell's last write targets that cell |
| Ingest.LastWriteStep | dataset.py:48-49 | one more write becomes its own cell's last write and leaves every other cell's last write unchanged |
| Ingest.LastWriteWins | dataset.py:48-49 | a write that no later write to the same cell follows is that cell's final content |
| Ingest.UnwrittenCell | dataset.py:26-27 | a cell that no write touches keeps what it held before |
| Ingest.AfterStep | dataset.py:48-49 | after one more write, its cell holds its label and spectrogram, and every other cell what it held before |
| Ingest.TargetOfFormattedName | dataset.py:41-49 | a well-formed name is written at the cell Locate gives, with its category and the file's spectrogram, or stops the pass with the rejected fold index |
| Ingest.TargetOfDocumentedName | dataset.py:41-49 | a well-formed name at a documented fold is written at its zero-based fold and its slot, with the category of the name, never checked against SAMPLE_CATEGORIES |
| Ingest.SampleCollision | dataset.py:48-49 | samples n and n + SAMPLES_PER_FOLD of one fold land in the same cell, and the later write's label and spectrogram silently replace the earlier's |
| Ingest.TwoFieldNameRejected | dataset.py:41 | a name with two dash-separated fields stops the pass with a field-count error of 2 |
| Dataset.WriteOutcomes | dataset.py:37-49 | the inner loop: it reports no failure exactly when every file writes, and otherwise the first failure; afterwards every cell of both tables holds its last completed write, or its old value |
| Dataset.PlaceFiles | dataset.py:35-49 | one pass over a split's files, with the same guarantees stated on the files' outcomes |
| Dataset.EARDataset.constructor | dataset.py:24-30 | four fresh, distinct tables of the configured shapes, every spectrogram zero and every label 0 |
| Dataset.EARDataset.Load | dataset.py:33-66 | training tables follow the training pass; a training failure is returned and leaves the validation tables unchanged; otherwise the validation tables follow the validation pass and its failure, if any, is returned |

## Left out

- Directory walking (`os.walk`) and path joining are left out. Each pass takes the walked files as a sequence in traversal order. Each file is given by its base name and its loaded payload. Traversal order comes from the file system and is not modelled.
- `np.load` becomes the `spectrogram` carried by each file. A file that fails to load, or whose array has a different shape, is not modelled. Spectrogram content is never inspected.
- Dataset.EARDataset.Load: the model stores each label as an exact integer. dataset.py:49 and :66 store it in a float64 table, which rounds categories above 2^53 (name `1-1-9007199254740993.npy` stores 9007199254740992.0); the model does not capture that rounding.
- FileName.ParseInt: accepts only ASCII decimal digits. Python's `int` also accepts surrounding whitespace, a `+` sign, `_` digit separators and other Unicode digits. A `-` sign cannot reach `int`, because `-` is the split delimiter.
- The file is parsed before it is loaded. A name that fails to parse therefore fails before any load. Every outcome of a pass is computed before its writes, which gives the same result because parsing reads no table.
- The `if __name__ == "__main__"` block does nothing and is left out.
- dataset.py has no code that saves the four tables to files, reloads them or prints progress, so the model has none either.
