# Verified model of the photophysical-property predictor adapter

This project models the core of `predict.py`: the adapter that turns one SMILES string
into a prediction vector (absorption wavelength, log extinction coefficient,
photoisomerisation quantum yield) by running the external `chemprop` ensemble tool through
a pair of temporary files, and maps every failure of that tool to the in-band sentinel
`[-inf, -inf, -inf]`.

- `wrappers.dfy` — `Option` and `Result`.
- `normalisation.dfy` (module `Normalisation`) — the values read back, the tagged columns of
  the output table, every outcome of one tool run (`ToolOutcome`), and the normalisation of
  an outcome into a vector: numeric columns kept in column order, text columns such as
  `smiles` dropped, right-padding with `NegInf` to 3 positions and no truncation.
- `temp_files.dfy` (module `TempFiles`) — class `Disk`: the set of temporary files that
  exist, with creation of a uniquely named file, a deletion that may fail, and `Discard`,
  the external tool leaving no file at the output path.
- `predictors.dfy` (module `Predictors`) — class `ChempropPredictor`: the constructor guard
  on the model path, `PredictSingle` (setup, tool run, normalisation, and the cleanup of
  the `finally` block, with the input file's name bound before the SMILES is written: the
  correction under "## Findings"), `PredictSingleAsWritten` (the binding order of the code
  as written), and `Predict`, one `PredictSingle` per molecule in input order.

The outside world is a parameter. The tool's behaviour in each call is a function from
(model path, SMILES) to a `ToolOutcome`, given per call, since every call starts a new
subprocess and a repeated molecule may fare differently. The failures of file creation, of
writing the SMILES, and of each deletion are a `Faults` value per call. Model-path existence is a set of existing paths. The result
function `Prediction` takes only the setup faults and the tool outcome, so a failing
deletion cannot change the returned vector.

The model follows the code:
- The returned vector has length 3 or more, not exactly 3: the comment at predict.py:138
  speaks of ensuring 3 values, but the padding at predict.py:140-141 only extends a shorter
  list, so extra numeric columns are kept.
- A deletion error is only logged (predict.py:153-161). A file whose deletion the platform
  refuses therefore stays on disk. A deletion of the output file that fails because the tool
  already removed it leaves nothing behind.
- With the input file's name bound before the write (`PredictSingle`), no temporary file is
  left when no deletion fails. The code as written can also leave an input file whose write
  failed, even when no deletion fails (see "## Findings" and `PredictSingleAsWritten`).

## Model

| member | source | states |
|---|---|---|
| Normalisation.Sentinel | predict.py:125 | the failure vector has exactly 3 positions, all negative infinity |
| Normalisation.NumericIndices | predict.py:130 | the selected columns are the numeric ones: every numeric column is selected, only numeric columns are, and in strictly increasing column order |
| Normalisation.NumericValuesInColumnOrder | predict.py:130-139 | the k-th value taken from the first row is the first-row value of the k-th numeric column, and there are as many values as numeric columns |
| Normalisation.Normalise | predict.py:122-144 | any failure outcome (launch error, nonzero exit, missing or empty output, unreadable table) gives the sentinel; a table gives max(3, number of numeric columns) values, numeric first-row values in column order first, negative infinity after them; never fewer than 3 |
| Normalisation.SentinelCharacterised | predict.py:125-148 | the result equals the sentinel exactly when the tool failed, or when the table held at most 3 numeric values that are all negative infinity |
| Normalisation.ThreePredictionsKept | predict.py:127-144 | a table with columns smiles, pred1, pred2, pred3 and row CCO, 450.3, 4.12, 0.67 gives [450.3, 4.12, 0.67] |
| Normalisation.OnePredictionPadded | predict.py:139-141 | a single numeric value 300.0 gives [300.0, -inf, -inf] |
| Predictors.Prediction | predict.py:90-148 | every call returns at least 3 positions; any failure while creating or writing the temporary files gives the sentinel |
| Predictors.SuccessfulPrediction | predict.py:136-144 | on success the numeric values are the prefix of the result, its length is max(3, their number), and every padded position is negative infinity |
| Predictors.ChempropPredictor.constructor | predict.py:74-76 | stores the path unchanged; its precondition records the existence that `Create` checks, through a ghost argument, so `Create` is the guard |
| Predictors.ChempropPredictor.Create | predict.py:74-76 | construction fails with the missing-path error exactly when the model path does not exist; otherwise the path is stored unchanged |
| Predictors.ChempropPredictor.InvokeAndRead | predict.py:101-144 | the tool is run once and its outcome normalised; only a missing output file changes the disk |
| Predictors.ChempropPredictor.Cleanup | predict.py:150-161 | each bound temporary file is deleted unless its deletion fails; errors never escape |
| Predictors.ChempropPredictor.PredictSingle | predict.py:79-161 | predict_single with the input file's name bound before the write (the correction under "## Findings"): the result is `Prediction` of the setup faults and the tool outcome, whatever the cleanup does; the two temporary files are fresh and distinct, the output file is created exactly when setup succeeded, and afterwards only files whose deletion failed remain; with no failed deletion the disk is as before. The code as written can also leave the input file after a failed write (see `PredictSingleAsWritten`) |
| Predictors.ChempropPredictor.PredictSingleAsWritten | predict.py:90-161 | the code as written: same result, the output file created exactly when setup succeeded, but a file whose SMILES write failed is never bound and so stays on disk |
| Predictors.ChempropPredictor.Predict | predict.py:23-33 | one result per input SMILES, in input order, each the `Prediction` of that molecule under its own call's tool behaviour and faults, and each of at least 3 positions; no pre-existing file is removed; built on the corrected `PredictSingle`, so with no failed deletion no temporary file is left (the code as written can also leave input files whose write failed) |
| Predictors.InputLeakWitness | predict.py:92-94 | on an empty disk, a failing SMILES write in the as-written code leaves one temporary file although no deletion failed |
| Predictors.InputCleanedWitness | predict.py:150-156 | the same call to the corrected predict_single leaves no file |
| TempFiles.Disk.CreateTemp | predict.py:92-98 | a created temporary file has a name not in use and is added to the live files; a failed creation changes nothing |
| TempFiles.Disk.Unlink | predict.py:154-159 | a deletion succeeds exactly when it does not fail and the file exists, and then removes only that file |

## Left out

- The subprocess call and its fixed argument list (predict.py:103-115): the tool is an abstract function of model path and SMILES. There is no timeout, as in the code.
- CSV parsing and dtype selection (predict.py:127-130): the output arrives as tagged columns with their first-row values. A table with no rows reads back with non-numeric columns, so it is modelled as a table of text columns.
- Float conversion (predict.py:139): values are opaque (`Num`, `NegInf`, `PosInf`, `NaN`). The precision lost when a large integer column becomes a float is not modelled.
- Temporary file names and the bytes written to them (predict.py:92-98): names are numbers, and only the created-then-deleted lifecycle is kept.
- Logging and the parent-directory diagnostics (predict.py:62-72, 89, 117-119, 124, 132, 143, 147): these have side effects only.
- `main` and `parse_args` (predict.py:163-215): argument parsing, CSV batch I/O, printing, float rounding and output-path construction are I/O glue.
- The unused `rdkit` import (predict.py:10).
- `BasePredictor` as a separate abstract class (predict.py:14-45): `Predict` is a method of the one concrete predictor, and the base's `NotImplementedError` is not modelled.
- Concurrency: every call is sequential.
- Predictors.ChempropPredictor.Predict: states only that no pre-existing file is removed and that a batch with no failed deletion leaves no file. It does not list which files remain after failed deletions; `PredictSingle` states that per call.

## Findings

| source | as written | input that shows it | evidently intended | confidence | as-written member | corrected member |
|---|---|---|---|---|---|---|
| predict.py:92-94 | the SMILES is written to the input file before `temp_input` is bound, so if the write raises, the `finally` block never deletes the file, which was created with `delete=False` | `--smiles` holding a byte that is not UTF-8 (decoded to a lone surrogate), making the text-mode write raise an encoding error | the cleanup deletes every temporary file the call created | medium, not executed | Predictors.ChempropPredictor.PredictSingleAsWritten, Predictors.InputLeakWitness | Predictors.ChempropPredictor.PredictSingle, Predictors.InputCleanedWitness |
