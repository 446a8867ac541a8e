# A verified model of the resumable trial loop of `run_and_update`

`run_and_update` (FY21_Q3/generate_dataset.py) builds a dataset of Monte-Carlo
trials. An Aspen process model and an Excel economic calculator are run once
per trial. The workbook holds an "Inputs" sheet and a one-row "Output" sheet.
Each input row holds a variable name, a type tag, a location and a
comma-separated list of per-trial values. The output row holds a name, a
`sheet!cell` location and the comma-separated values recorded so far.

The loop is resumable. The number of values already recorded is the number of
completed trials. A call runs trials `completed .. nruns-1` in increasing
order. Each trial does the following, in this order:

- writes every `bkp` / `bkp_fortran` input into Aspen, with the Fortran flag
  set only for `bkp_fortran`;
- runs Aspen and saves the snapshot `<dir>/tmp/<i>.bkp`;
- writes every `xlsm` input into the calculator cell its location names;
- loads the snapshot into the calculator and runs macro `solvedcfror`;
- reads the output cell and appends the value;
- rewrites the whole workbook with the values joined by `,`.

The project has five modules:

- `Strings` (strings.dfy): `str.split` and `str.join` for a one-character
  delimiter, with their round trips, and `str(i)` for a trial index.
- `Dataset` (dataset.dfy): cells, rows and the workbook. It decodes the "Values"
  cells and the `sheet!cell` locations and builds the snapshot path. It names
  the exceptions the loop can raise: `TypeError`, `AttributeError`,
  `IndexError` and the `ValueError` of a location unpack.
- `Tools` (tools.dfy): the collaborators, as classes that record every call in
  one shared `Log`:
  - `Aspen` and `Excel`;
  - `DatasetFile`, whose `store` field is the workbook on disk;
  - `MakeDirectories`.

  The calculator answers a cell read through a `Respond` function of the
  snapshot it has loaded.
- `GenerateDataset` (generate_dataset.dfy):
  - the functions `Trial`, `Trials` and `Run` give the calls a call of
    `run_and_update` makes, the values it records and the error that stops it;
  - the methods `SetAspenInputs`, `SetCalculatorInputs`, `RunTrial`,
    `RunTrials` and `RunAndUpdate` are the loops themselves. Each is proved to
    append exactly those calls to the log and to leave the workbook holding the
    last one written.
- `RunProperties` (run_properties.dfy): what the loop promises, proved about
  `Trial`, `Trials` and `Run`. This covers routing by type tag, the call order
  inside a trial, the trial indices visited, the snapshots, the checkpoints,
  opening and closing once, and resuming from a checkpoint.

Where the code and its documentation differ, the model follows the code:

- **Overrun.** When more values are recorded than `nruns`, line 86 tests
  `nrunsLeft != 0`. The directory is still created and both tools are still
  opened and closed, but no trial runs (`RunProperties.RunOverrun`).
- **When inputs are parsed.** The input "Values" cells are parsed only when
  work is left. With nothing left, a malformed input table raises nothing.
- **How the workbook is written.** It is overwritten in place after each
  trial. There is no temporary file and no rename.
- **No cleanup on error.** An error leaves the tools open. The workbook then
  holds the trials that completed (`RunProperties.RunFailureKeepsCompletedTrials`).

## Model

| member | source | states |
|---|---|---|
| Strings.Split | FY21_Q3/generate_dataset.py:69 | `values.split(',')` yields at least one token and no token contains the delimiter |
| Strings.JoinSplit | FY21_Q3/generate_dataset.py:69 | joining the split tokens with the delimiter gives back the original string |
| Strings.SplitJoin | FY21_Q3/generate_dataset.py:142 | splitting the `,`-join of delimiter-free tokens gives back exactly those tokens |
| Strings.SplitCount | FY21_Q3/generate_dataset.py:79 | a string with `k` delimiters splits into `k + 1` tokens |
| Strings.Decimal | FY21_Q3/generate_dataset.py:121 | `str(i)` is non-empty, has at least two digits from 10 on, and ends in the digit of `i % 10` |
| Strings.DecimalInjective | FY21_Q3/generate_dataset.py:121 | different trial indices print differently |
| Dataset.DecodeValues | FY21_Q3/generate_dataset.py:67-73 | a string cell decodes to its comma-separated tokens, one more than its commas, and they join back to the string; an empty cell gives no values; anything else is `TypeError` |
| Dataset.DecodeInputs | FY21_Q3/generate_dataset.py:90-94 | succeeds exactly when every "Values" cell is a string; then one variable per row, in order, each with its values split; otherwise `AttributeError` naming the first bad row |
| Dataset.RemakeInputs | FY21_Q3/generate_dataset.py:90-94 | the loop that appends one variable per row returns exactly `DecodeInputs` of the table |
| Dataset.SplitLocation | FY21_Q3/generate_dataset.py:127 | `sheet, cell = loc.split('!')` succeeds exactly when the location holds one `!`; then `loc == sheet + "!" + cell` with no `!` in either part; otherwise `ValueError` |
| Dataset.TmpDir | FY21_Q3/generate_dataset.py:98 | the snapshot directory `<outDir>/tmp`; no contract of its own: `RunProperties.RunSnapshots` states that every snapshot of a run is a path inside it |
| Dataset.SnapshotPath | FY21_Q3/generate_dataset.py:121 | the snapshot file `<tmpDir>/<i>.bkp` of trial `i`; no contract of its own: `Dataset.SnapshotPathInjective` and `RunProperties.SnapshotRangeDistinct` state that distinct trials get distinct files |
| Dataset.SnapshotPathInjective | FY21_Q3/generate_dataset.py:121 | two trials with the same snapshot path are the same trial |
| Tools.Log.Record | FY21_Q3/generate_dataset.py:101-154 | each call on a collaborator is appended to the log and nothing else changes |
| Tools.MakeDirectories | FY21_Q3/generate_dataset.py:99 | creating the snapshot directory is one logged call |
| Tools.Aspen.constructor | FY21_Q3/generate_dataset.py:101 | opening the Aspen model is logged |
| Tools.Aspen.SetValue | FY21_Q3/generate_dataset.py:110-113 | a write of one value at a location, with the Fortran flag, is logged |
| Tools.Aspen.RunModel | FY21_Q3/generate_dataset.py:119 | running the model is logged |
| Tools.Aspen.SaveModel | FY21_Q3/generate_dataset.py:122 | saving the snapshot at the given path is logged |
| Tools.Aspen.Close | FY21_Q3/generate_dataset.py:153 | closing Aspen is logged |
| Tools.Excel.constructor | FY21_Q3/generate_dataset.py:102 | opening the calculator is logged; no snapshot is loaded yet |
| Tools.Excel.SetCell | FY21_Q3/generate_dataset.py:128 | a write of one value to a sheet and cell is logged |
| Tools.Excel.LoadAspenModel | FY21_Q3/generate_dataset.py:134 | loading a snapshot is logged and makes it the snapshot later reads answer from |
| Tools.Excel.RunMacro | FY21_Q3/generate_dataset.py:135 | running the named macro is logged |
| Tools.Excel.GetCell | FY21_Q3/generate_dataset.py:138 | a read answers from the loaded snapshot and the cell asked for, and is logged |
| Tools.Excel.Close | FY21_Q3/generate_dataset.py:154 | closing the calculator is logged |
| Tools.DatasetFile.constructor | FY21_Q3/generate_dataset.py:146-149 | the workbook on disk before the run |
| Tools.DatasetFile.Write | FY21_Q3/generate_dataset.py:146-149 | the whole workbook is replaced by the new one, and the write is logged |
| Tools.LatestStore | FY21_Q3/generate_dataset.py:146-149 | the workbook on disk after a sequence of calls, the last write winning; no contract of its own: `Tools.LatestStoreUnwritten` and `Tools.LatestStoreAppend` state its behaviour, and every method that writes the workbook ends with its store equal to it |
| Tools.LatestStoreUnwritten | FY21_Q3/generate_dataset.py:146-149 | calls that write no workbook leave the workbook as it was |
| Tools.LatestStoreAppend | FY21_Q3/generate_dataset.py:146-149 | the workbook after two stretches of calls is the last one written, the later stretch winning |
| GenerateDataset.AspenPass | FY21_Q3/generate_dataset.py:108-116 | the calls and error of the Aspen pass; no contract of its own: `RunProperties.AspenPassRouting` states when it raises and what it writes, `GenerateDataset.AspenPassWritesAspen` that it writes only Aspen, and `GenerateDataset.SetAspenInputs` is proved equal to it |
| GenerateDataset.CalculatorPass | FY21_Q3/generate_dataset.py:125-131 | the calls and error of the calculator pass; no contract of its own: `RunProperties.CalculatorPassRouting` states when it raises and what it writes, `GenerateDataset.CalculatorPassWritesCells` that it writes only cells, and `GenerateDataset.SetCalculatorInputs` is proved equal to it |
| GenerateDataset.Checkpoint | FY21_Q3/generate_dataset.py:142-148 | the workbook written after a trial; no contract of its own: `RunProperties.CheckpointRoundTrip` states that it keeps the inputs and its output cell decodes back to the values |
| GenerateDataset.Trial | FY21_Q3/generate_dataset.py:105-151 | the calls, values and error of one trial; no contract of its own: `RunProperties.TrialCallOrder`, `TrialObservations` and `TrialFailureWritesNothing` state its behaviour, and `GenerateDataset.RunTrial` is proved equal to it |
| GenerateDataset.Trials | FY21_Q3/generate_dataset.py:104-151 | the calls, values and error of the loop over `range(lo, hi)`; no contract of its own: `RunProperties.TrialsValues`, `TrialsSnapshots`, `TrialsCheckpoints`, `TrialsLatestStore`, `TrialsSplit` and `GenerateDataset.TrialsStopAtFailure` state its behaviour, and `GenerateDataset.RunTrials` is proved equal to it |
| GenerateDataset.Opening | FY21_Q3/generate_dataset.py:98-102 | the calls that create the snapshot directory and open both tools; no contract of its own: `RunProperties.RunOpensAndClosesOnce` states that a run starts with exactly these and opens nothing later |
| GenerateDataset.Run | FY21_Q3/generate_dataset.py:56-156 | the calls, values and error of a whole `run_and_update`; no contract of its own: the `RunProperties.Run*` lemmas state its behaviour, and `GenerateDataset.RunAndUpdate` is proved equal to it |
| GenerateDataset.AspenPassWritesAspen | FY21_Q3/generate_dataset.py:108-116 | the Aspen pass makes only Aspen writes |
| GenerateDataset.CalculatorPassWritesCells | FY21_Q3/generate_dataset.py:125-131 | the calculator pass makes only calculator cell writes |
| GenerateDataset.SetAspenInputs | FY21_Q3/generate_dataset.py:108-116 | the loop over the inputs logs exactly the Aspen pass of trial `i` and returns its error |
| GenerateDataset.SetCalculatorInputs | FY21_Q3/generate_dataset.py:125-131 | the loop over the inputs logs exactly the calculator pass of trial `i` and returns its error |
| GenerateDataset.PassStopsAtFailure | FY21_Q3/generate_dataset.py:108-131 | once a pass has raised on some input, the inputs after it change nothing |
| GenerateDataset.RunTrial | FY21_Q3/generate_dataset.py:105-151 | one trial logs exactly the calls of `Trial`, returns its values and error, and leaves the workbook holding its checkpoint |
| GenerateDataset.RunTrials | FY21_Q3/generate_dataset.py:104-151 | the loop over `range(lo, hi)` logs exactly the calls of `Trials`, returns its values and error, and leaves the last checkpoint in the workbook |
| GenerateDataset.TrialsStopAtFailure | FY21_Q3/generate_dataset.py:104 | after a trial raises, no later trial runs |
| GenerateDataset.RunAndUpdate | FY21_Q3/generate_dataset.py:56-156 | the whole procedure logs exactly the calls of `Run`, leaves the last workbook written on disk and raises `Run`'s error |
| RunProperties.AspenPassRouting | FY21_Q3/generate_dataset.py:108-116 | the Aspen pass raises exactly when a `bkp`/`bkp_fortran` input has no value for trial `i`, naming such an input; otherwise it writes each such input in table order, with flag true exactly for `bkp_fortran` |
| RunProperties.CalculatorPassRouting | FY21_Q3/generate_dataset.py:125-131 | the calculator pass raises exactly when an `xlsm` input has a malformed location or no value for trial `i`; otherwise it writes each such input to its sheet and cell, in table order |
| RunProperties.UnroutedInputIgnored | FY21_Q3/generate_dataset.py:108-131 | an input with any other type tag changes neither pass: it is never written and never raises |
| RunProperties.TrialCallOrder | FY21_Q3/generate_dataset.py:107-149 | a trial succeeds exactly when all routed inputs and the output location are usable; it then makes, in order, the Aspen writes, run, save, the calculator writes, load of that snapshot, macro `solvedcfror`, the output read and the checkpoint, and appends the read value; on error it records nothing |
| RunProperties.TrialObservations | FY21_Q3/generate_dataset.py:121-149 | a successful trial saves exactly its own snapshot and writes exactly one workbook, holding the values with its reading appended |
| RunProperties.TrialFailureWritesNothing | FY21_Q3/generate_dataset.py:105-149 | a trial that raises records no value and writes no workbook |
| RunProperties.SnapshotRange | FY21_Q3/generate_dataset.py:104-121 | the snapshot paths of trials `lo .. hi-1`: the `j`-th is the path of trial `lo + j` |
| RunProperties.Readings | FY21_Q3/generate_dataset.py:104-138 | the readings of trials `lo .. hi-1`: the `j`-th is the cell read from trial `lo + j`'s snapshot |
| RunProperties.CheckpointsFrom | FY21_Q3/generate_dataset.py:139-149 | the workbooks written while values are appended one at a time: the `j`-th holds the values up to the `j`-th appended one |
| RunProperties.TrialsValues | FY21_Q3/generate_dataset.py:104-139 | trials only append, at most one value each; the earlier values stay a prefix; when all succeed, the values are the earlier ones followed by each trial's reading, in trial order |
| RunProperties.TrialsSnapshots | FY21_Q3/generate_dataset.py:104-122 | successful trials `lo .. hi-1` save exactly the snapshots of `lo, lo+1, …, hi-1`, in that order |
| RunProperties.TrialsCheckpoints | FY21_Q3/generate_dataset.py:139-149 | successful trials write one workbook per trial, each with the values recorded up to that trial |
| RunProperties.TrialsCheckpointsDecode | FY21_Q3/generate_dataset.py:139-148 | successful trials `lo .. hi-1` after `lo` recorded values end with `hi` values and write `hi - lo` workbooks; the `j`-th keeps the input table, the output name and location, and decodes to the first `lo + j + 1` values |
| RunProperties.TrialsLatestStore | FY21_Q3/generate_dataset.py:139-149 | success or not, the workbook after the trials is unchanged if none completed, otherwise the checkpoint of the values recorded |
| RunProperties.TrialsSplit | FY21_Q3/generate_dataset.py:104 | running `lo .. mid-1` and then `mid .. hi-1` is running `lo .. hi-1` |
| RunProperties.RunConfigurationErrors | FY21_Q3/generate_dataset.py:67-93 | a malformed output cell raises `TypeError`, and with work left a malformed input cell raises `AttributeError`, before any collaborator is called |
| RunProperties.RunNothingLeft | FY21_Q3/generate_dataset.py:79-86 | with exactly `nruns` values recorded, nothing is called and the values are kept |
| RunProperties.RunOverrun | FY21_Q3/generate_dataset.py:79-154 | with more than `nruns` values recorded, the directory is created and both tools are opened and closed, with nothing in between, and the values are kept |
| RunProperties.RunCompletes | FY21_Q3/generate_dataset.py:79-139 | a completed run with work left records exactly `nruns` values; the earlier ones are a prefix and value `k` is the reading of trial `k`'s snapshot |
| RunProperties.RunOpensAndClosesOnce | FY21_Q3/generate_dataset.py:99-154 | a completed run first creates the directory and opens both tools, last closes Aspen and then the calculator, and opens or closes nothing in between |
| RunProperties.TrialIsNotSessionCall | FY21_Q3/generate_dataset.py:105-151 | a trial opens and closes nothing |
| RunProperties.TrialsAreNotSessionCalls | FY21_Q3/generate_dataset.py:104-151 | no trial of the loop opens or closes anything |
| RunProperties.RunOnTrials | FY21_Q3/generate_dataset.py:97-154 | with work left and the inputs decoded, a run is: opening, then its trials, then both closes only if no trial raised |
| RunProperties.RunShowsTrials | FY21_Q3/generate_dataset.py:97-154 | a run's values, error, snapshots, workbooks written and final workbook are those of its trials |
| RunProperties.RunSnapshots | FY21_Q3/generate_dataset.py:98-122 | a completed run saves the snapshots of trials `completed .. nruns-1` in increasing order, and no two are the same file |
| RunProperties.SnapshotRangeDistinct | FY21_Q3/generate_dataset.py:121 | the snapshot paths of a range of trials are pairwise distinct |
| RunProperties.CheckpointRoundTrip | FY21_Q3/generate_dataset.py:142-148 | a checkpoint keeps the input table, and its output cell decodes back to exactly the values it was written with |
| RunProperties.RunCheckpoints | FY21_Q3/generate_dataset.py:139-148 | a completed run writes one workbook per trial; the `j`-th keeps the input table, the output name and location, and decodes to the first `completed + j + 1` values |
| RunProperties.CheckpointsFromDecode | FY21_Q3/generate_dataset.py:142-148 | every workbook written while values are appended keeps the inputs and decodes to the values up to it |
| RunProperties.RunFailureKeepsCompletedTrials | FY21_Q3/generate_dataset.py:104-149 | the earlier values always stay a prefix; after an error once the tools are open, the workbook is unchanged if no trial completed, otherwise it is the checkpoint of exactly the completed trials |
| RunProperties.ResumeFromCheckpoint | FY21_Q3/generate_dataset.py:67-104 | restarting from any checkpoint of a completed run, with the same `nruns` and calculator answers, records the same values without error |

## Left out

- Reading and writing the workbook through pandas and openpyxl (lines 49-53 and 143-149) is not modelled. The workbook is the `Store` value that `DatasetFile.Write` replaces whole. `parse_data_file` is therefore not modelled; its sheets are the inputs of `RunAndUpdate`.
- The internals of the `Aspen` and `Excel` driver classes are not part of this model. These are COM automation in a module not shown. Only the order of the calls made on them is modelled, and the calculator's answer is the parameter `respond`.
- Location cells are always strings in the model. In the source, a blank location cell (NaN) on an `xlsm` row or on the output row makes `.split('!')` raise `AttributeError` (lines 127 and 137). The model has no such cell; an empty location instead raises the `ValueError` of a failed unpack (`MalformedLocation`) at the same point in the calls.
- The calculator's answer is a comma-free token: `Respond` returns a `Token`. In the source, a `get_cell` result whose text contains `,` would be split into several values when the workbook is read back, and a resumed run would count more completed trials than ran. `RunProperties.CheckpointRoundTrip`, `RunProperties.RunCheckpoints` and `RunProperties.ResumeFromCheckpoint` hold under this assumption only.
- Failures inside the collaborators are not modelled: a COM error, a failed save or a failed workbook write. Only the exceptions raised by `run_and_update`'s own code are.
- Floating point is not modelled. `float(...)` and `str(...)` on values are left out, so values are opaque comma-free tokens. It is assumed that `str(float(t))` prints `t` again. A token that `float` rejects (such as the empty token of `"1,,2"`) raises `ValueError` in the source; the model instead carries that token as a value.
- `np.isnan` on a non-NaN float cell is modelled like any other non-string cell: it raises `TypeError`.
- `os.path.dirname(data_file)` is not modelled. The directory is the parameter `outDir`.
- The output sheet is modelled as exactly one row. `squeeze()` on several rows is not modelled.
- The `print` progress messages, the module constants and the `__main__` block are left out.
- FY21_Q3/identify_distribution.py is not part of this model. It is distribution fitting and plotting on floating point.
- Concurrency and other processes touching the workbook are not modelled.
