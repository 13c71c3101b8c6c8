# chaitorch training extensions, modelled in Dafny

This project models the extensions of the chaitorch training loop
(`chaitorch/training/extension.py`). The trainer calls each extension once per
training step, and each extension decides from its trigger whether to act:

- **Extension** (module `ExtensionBase`) is the base class. It turns a trigger
  argument into a trigger: a dict becomes the trigger that `isTrigger` builds, and
  any other object is kept as it is. It also fixes each class's priority.
- **LogReport** (module `LogReporting`) filters each step's observation down to
  the requested keys and adds it to its summarizer. When its trigger fires, it
  appends a record to its log: the summarizer's mean, with `epoch`, `iteration`
  and `elapsed_time` taken from the trainer. It then rewrites the persisted log
  with the whole list, prints the record as a fixed-width row (the header is
  printed at construction) and starts a fresh summarizer.
- **ProgressBar** (module `Progress`) draws two 50-character bars every
  `update_interval` iterations, one for the whole run and one for the current
  epoch. It also estimates the time left from the clock readings it keeps.
- **SnapshotModel** (module `Snapshot`) saves every model's parameters when its
  trigger fires. Its `finalize` saves a separate "latest" copy without asking
  the trigger.

Modules `Text` (Python's `c * n` and `str.ljust`) and `Outcomes` (Option,
Result and the division by zero the progress-bar arithmetic can raise) support
the others.

The collaborators are inputs to the model:

- The trigger's answer is a `fired: bool` parameter of each call.
- The summarizer's `compute_mean` is a function value `mean`, given to
  LogReport when it is built. Its arithmetic is left abstract.
- The two value renderings of `printout` (`f'{v:}'` and `f'{v:.5f}'`) are the
  two functions of a `Formatter`.
- The trainer's counters, the data loader's length and the clock readings are
  parameters.
- Whether the updater has a single `model` or a `models` dict is a `Models`
  value.

Persistence is modelled as a ghost `persisted` field holding the content of
the log file. The console is an `output` field holding the lines written.
Checkpoints are modelled as the names of the files written.

Where the code departs from what its names and comments evidently intend, the model follows the code:

- `SnapshotModel.finalize` (extension.py:223-229) does not create the save
  directory. A run whose trigger never fired therefore writes the intended final
  checkpoint only if that directory already exists. `Snapshot.Finalize` reports
  `makeDirs == false`.
- `SnapshotModel.__call__` ignores every `OSError` from `os.makedirs`
  (lines 213-216), not only "directory exists".
- The evaluators have priority −1 and LogReport has 0. If the trainer calls
  extensions in descending priority, the evaluators report in the same step
  only after LogReport has read the observation. The
  trainer is not part of this model, so the model records only the priority
  values.
- The overall length of the progress bar is the stopping trigger's `trigger`
  attribute times the batches per epoch (line 104). This counts epochs, even if
  the stopping trigger counts iterations.

## Model

| member | source | states |
|---|---|---|
| `ExtensionBase.Normalize` | chaitorch/training/extension.py:21-22 | a dict argument becomes the trigger built from that dict; any other argument is kept unchanged; the result is never an unconverted dict |
| `ExtensionBase.DefaultNormalizes` | chaitorch/training/extension.py:21-22 | the default argument `{'epoch': 1}` becomes the trigger built from that dict |
| `ExtensionBase.NormalizeIdempotent` | chaitorch/training/extension.py:22 | normalising an already normalised trigger changes nothing |
| `ExtensionBase.Priority` | chaitorch/training/extension.py:17-19 | priority is −1 for ProgressBar and both evaluators (lines 94, 128, 154) and 0 for every other class, including SnapshotModel's explicit 0 (line 204) |
| `Text.Repeat` | chaitorch/training/extension.py:109-110 | `c * n` has max(n, 0) characters, all equal to c |
| `Text.LJust` | chaitorch/training/extension.py:41 | `s.ljust(w)` starts with s, pads only with spaces, and has length max(\|s\|, w): it never truncates |
| `LogReporting.Filter` | chaitorch/training/extension.py:46-49 | the observation added has exactly the keys that are in both the observation and `keys` (all of them when `keys` is None), with unchanged values |
| `LogReporting.MakeRecord` | chaitorch/training/extension.py:52-55 | the record has the mean's keys plus `epoch`, `iteration` and `elapsed_time`; those three equal the trainer's values and override the mean; every other key keeps the mean's value |
| `LogReporting.Advance` | chaitorch/training/extension.py:46-70 | one call appends exactly one record at the end when the trigger fires; otherwise the log is unchanged and the summarizer grows by one observation; earlier records never change; a fire empties the summarizer |
| `LogReporting.ReplayLength` | chaitorch/training/extension.py:51-57 | after any sequence of calls, the log has one record per fired call |
| `LogReporting.ReplayGrows` | chaitorch/training/extension.py:57 | the log after the first n calls is a prefix of the log after all the calls |
| `LogReporting.ReplayPending` | chaitorch/training/extension.py:46-70 | the summarizer holds exactly the filtered observations of the calls after the last fire, in order |
| `LogReporting.ReplayRecord` | chaitorch/training/extension.py:46-70 | the record of fired call i sits at index "number of earlier fires". It is the mean of the filtered observations from just after the previous fire up to and including call i, with call i's epoch, iteration and elapsed time |
| `LogReporting.Cell` | chaitorch/training/extension.py:74-84 | a missing key prints as exactly 20 spaces, whatever the key; a present value is its rendering followed by spaces up to 10 (`epoch`, `iteration`) or 20 characters, never truncated |
| `LogReporting.Header` | chaitorch/training/extension.py:41 | the header row is never narrower than the sum of the column widths (10 for `epoch` and `iteration`, 20 otherwise), and exactly that wide when every key name fits its column |
| `LogReporting.Line` | chaitorch/training/extension.py:74-84 | the row printed for a record is never narrower than the sum of the column widths, since no segment is truncated |
| `LogReporting.LineMatchesHeader` | chaitorch/training/extension.py:41-84 | the header and a record with `epoch` and `iteration` use the same per-key widths: when every name and value fits, both rows are as wide as the sum of the column widths |
| `LogReporting.MissingNarrowKeyMisaligns` | chaitorch/training/extension.py:80-81 | without `epoch` in the record, its blank segment takes 20 characters against the header's 10; records LogReport appends never hit this, because line 53 always sets `epoch` |
| `LogReporting.LogReport.constructor` | chaitorch/training/extension.py:33-41 | keys, name and print flag are stored; the trigger is normalised; the summarizer and log start empty; the header row is printed when printing is on |
| `LogReporting.LogReport.Call` | chaitorch/training/extension.py:43-70 | the filtered observation is added before the trigger's answer is used. On a fire: the log grows by the record of the summarizer's mean including this step; the persisted log becomes the whole log; the row is printed; the summarizer is emptied. Without a fire: the log and the persisted file are unchanged. The object invariant ties the state to `Replay` of all calls so far |
| `LogReporting.LogReport.Printout` | chaitorch/training/extension.py:72-86 | the row built segment by segment in key order is `Line` of the last record |
| `Progress.Filled` | chaitorch/training/extension.py:105-110 | the number of `#` is floor(count·50/length); within the run it is at most 50 |
| `Progress.BarBody` | chaitorch/training/extension.py:109-110 | for count ≤ length the bar body is exactly 50 characters: `#` at position i exactly when i < floor(count·50/length), and every later character a space; past the end it is all `#` |
| `Progress.FilledMonotone` | chaitorch/training/extension.py:109-110 | a larger count never yields fewer `#` |
| `Progress.BarEnds` | chaitorch/training/extension.py:109-110 | count 0 gives an all-blank bar; count = length gives an all-`#` bar |
| `Progress.Draw` | chaitorch/training/extension.py:101-110 | bars are drawn exactly when `total_iter` is a multiple of `update_interval` and both the stopping interval and the batches per epoch are positive. A zero interval, or a zero overall length (stopping interval × batches per epoch) on an interval step, raises ZeroDivisionError |
| `Progress.DrawnBarsInRun` | chaitorch/training/extension.py:102-110 | within the run, both drawn bars are their label plus exactly 50 characters plus `]`, filled in proportion to the progress |
| `Progress.ProgressBar.constructor` | chaitorch/training/extension.py:96-99 | the interval is stored, the reference time is the construction-time reading, and the accumulated cost is 0 |
| `Progress.ProgressBar.Call` | chaitorch/training/extension.py:101-119 | off the interval or on an error, the state is unchanged. On a draw: the bars are `Draw`'s; the cost grows by the measured interval; the reference time becomes the second reading; the estimate is max(interval/update_interval·overall − cost, 0) ≥ 0 |
| `Progress.Max` | chaitorch/training/extension.py:116 | `max(a, b)` is at least both arguments and equal to one of them, so the estimate is never negative |
| `Snapshot.Files` | chaitorch/training/extension.py:218-229 | one file per model (lines 218, 221, 226, 229); every file name ends with the base name; a named model's file name starts with that name and `_` |
| `Snapshot.Call` | chaitorch/training/extension.py:210-221 | nothing is written unless the trigger fired; on a fire the directory is created and `snapshot_model.params`, or one `<name>_snapshot_model.params` per named model, is written |
| `Snapshot.Finalize` | chaitorch/training/extension.py:223-229 | `latest_model.params`, or one `<name>_latest_model.params` per named model, is written without consulting a trigger and without creating the directory |
| `Snapshot.SaveAll` | chaitorch/training/extension.py:217-221 | the loop writes one file per model, in the dict's order, named as `Files` says |
| `Snapshot.PeriodicNeverFinal` | chaitorch/training/extension.py:218-229 | no periodic snapshot file name is ever a latest file name |
| `Snapshot.FileNameInjective` | chaitorch/training/extension.py:221 | two model names give the same file name only if they are equal |
| `Snapshot.DistinctFiles` | chaitorch/training/extension.py:220-221 | distinct model name strings give pairwise distinct file names |

## Left out

- ClassifyEvaluater and MetricEvaluater (extension.py:126-199) are not modelled. They consist of torch forward passes, a loss, a numpy reshape, the recall metric and the reporter's scopes, none of which is part of this model. Two things a reader of that code may note: eval and train mode are toggled inside each batch, so an exception in the loss leaves the model in eval mode (lines 145-147). The final scope also reuses the last batch's `observation`, which is unbound if the loader is empty (line 193).
- `Extension.__call__` only raises NotImplementedError, and `Extension.finalize` is a no-op that LogReport inherits. Neither has a member here.
- The trigger classes, the summarizer, the reporter and the trainer are not part of this model. The trigger's answer is a boolean input per call and the mean is an abstract function, so the order in which the trainer calls extensions is not modelled.
- LogReporting.LogReport.Call: the trigger is consulted once per call, which is captured by its answer being a single input. The model does not see the trigger's own state.
- LogReporting.LogReport.Call: the temporary directory, `json.dump` and `shutil.move` (lines 59-65) become one assignment of the ghost `persisted`. Write failures, which would leave the record appended but the summarizer not reset, are not modelled.
- The `.5f` formatting and `str()` of values are left abstract (`Formatter`). The ANSI cursor codes around printed rows and bars (lines 85, 118, 122) are left out, and so is `ProgressBar.finalize`, which only clears lines.
- Progress.Filled: Python computes `int(count * (50 / length))` in floating point, and the model uses exact integer floor division, the evidently intended meaning. The two differ at some full counts: for length 97 (also 161, 167, 193, 194, 195, 199, …) `int(97 * (50 / 97))` is 49, so the source's full bar ends in a space. `Progress.BarEnds`' all-`#` bar at count = length holds of the model, not of the floating-point code for such lengths.
- LogReporting.LogReport.constructor: a LogReport built with `keys=None` and printing on (the default) raises TypeError at line 41, where the header iterates `None`. That failure is not modelled: the constructor requires a key list whenever printing is on.
- Progress.ProgressBar.Call: times are exact reals and the two `time.time()` readings are parameters. Floating-point rounding and the `timedelta` text of the estimate (line 117) are not modelled.
- Progress.Draw: counts and lengths are non-negative integers. Negative `total_iter` or stopping interval are not modelled.
- Snapshot.Call: `torch.save`, `os.makedirs` and `os.path.join` are not modelled. File names are relative to the save directory, and a failed save (such as a missing directory in `finalize`) is not modelled.
- Snapshot.DistinctFiles: model names are taken to be strings. The source formats each dict key with `f'{k}_…'`, so distinct keys such as `1` and `'1'` give the same file name, which the model does not capture.
- Snapshot.Models: the updater is assumed to offer either a `model` or a `models` dict. One with neither raises AttributeError at extension.py:220 and 228, which is not modelled.
- The entry-point scripts `cub_triplet.py` and `train_with_trainer.py` only wire these extensions together and are not modelled.
