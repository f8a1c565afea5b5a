# DECODE checkpoint policy and emitter-table I/O, in Dafny

This project models two utilities of the DECODE / deepsmlm single-molecule localisation code.

**`LoadSaveModel` (`deepsmlm/utils/model_io.py`).** This is the policy that decides when a network checkpoint is written and to which file.

- **Improvement gate.** A call to `save(model, metric_val)` carrying a metric passes only when `metric / best <= 1 - better_th`. The best value starts at infinity. A passed metric becomes the new best.
- **Suffix rotation.** The file-name suffix advances when the name interval has elapsed, or when no metric is given. It wraps at `max_files`.
- **Target file.** The file written is `<output file without extension>_<suffix>.pt`.

The model has three parts:

- a pure state-transition function, `SaveStep`;
- a class, `LoadSaveModel`, whose `Save` method updates its fields step by step as the Python does, and is proved equal to `SaveStep`;
- lemmas about sequences of calls.

The clock (`time.time()`) becomes the parameter `now`.

**Emitter-table readers and writer (`deepsmlm/utils/emitter_io.py`).**

- `load_csv` and `load_smap` read emitters from a CSV table or from the `saveloc/loc` group of a SMAP `.mat` file. A file is modelled as its named columns (`map<string, seq<real>>`). The model states which mapping keys and columns are looked up, in which order, which `KeyError` (or, for `load_smap`, `ShapeError`) the first failing lookup raises, and how the emitter dict is built, including the frame shift from 1-based to 0-based.
- `save_csv` turns tensors into numpy arrays and splits `xyz` and `xyz_cr` into their columns. It returns the ordered columns it would hand to pandas.

Python's insertion-ordered `dict` is modelled in `OrderedDict` as a sequence of key/value pairs. It covers item assignment, `update`, `pop` and a copy, and `PyDict` is a mutable wrapper class. Python's `str(int)` is modelled in `Decimal` together with its parse-back inverse.

Modules:

- `wrappers.dfy`: `Option` and `Result`.
- `decimal.dfy`: `str(int)` and its inverse.
- `ordered_dict.dfy`: the `dict` operations used by `save_csv`.
- `model_io.dfy`: `LoadSaveModel`.
- `emitter_io.dfy`: `load_csv`, `load_smap` and `save_csv`.

The guard on line 45 of `model_io.py` reads `(max_files is not None) or (max_files != -1)`. That condition holds for every value, so `max_files` is stored exactly as passed and is never replaced by infinity. The model keeps this as written:

- `max_files = -1` makes every rotation go to suffix 0, so one file is overwritten.
- `max_files = None` raises a `TypeError` at the first rotation.

## Model

| member | source | states |
|---|---|---|
| ModelIo.MaxFilesGuard | deepsmlm/utils/model_io.py:45 | the stored limit is exactly the argument: `None` and -1 are never replaced by infinity, and infinity is stored only when `float('inf')` is passed |
| ModelIo.Gate | deepsmlm/utils/model_io.py:90-96 | division by zero exactly when the best value is 0. Against infinity the metric passes iff `better_th <= 1`. Against a positive best `b` it passes iff `metric <= b(1 - better_th)`, and against a negative one the inequality flips |
| ModelIo.NextSuffix | deepsmlm/utils/model_io.py:100-102 | with `max_files = n >= 1` the next suffix is `(suffix + 1) mod n`, in `[0, n-1]`. With `n <= 0` it is 0. `None` raises. An infinite limit only increments |
| ModelIo.FileNameInjective | deepsmlm/utils/model_io.py:107 | two different suffixes never name the same `.pt` file |
| Decimal.ParseIntToString | deepsmlm/utils/model_io.py:107 | the decimal text `str(suffix)` put into the file name reads back as the suffix |
| Decimal.IntToStringInjective | deepsmlm/utils/model_io.py:107 | different integers have different decimal texts |
| ModelIo.SaveStep | deepsmlm/utils/model_io.py:80-111 | (1) A failed gate returns early, and a zero best raises, both with no field changed. (2) The first metric against infinity is accepted and becomes the best. (3) A passed save records its metric, or keeps the best when there is none. (4) Rotation happens exactly when the metric is missing or `now > new_name_time + interval`, and it sets the suffix to the next one and `new_name_time := now`. Without rotation both stay. (5) A rotation under `max_files = None` raises after the suffix increment. (6) Every save written sets `last_saved := now` and targets `stem_<suffix>.pt` |
| ModelIo.RunKeepsSuffixInRange | deepsmlm/utils/model_io.py:99-102 | with `max_files = n >= 1` the suffix stays in `[-1, n-1]` over any sequence of saves |
| ModelIo.RunBestNonIncreasing | deepsmlm/utils/model_io.py:90-94 | with positive metrics and `0 <= better_th < 1` the best value never increases and stays positive over any sequence of saves, so no save divides by zero |
| ModelIo.MinusOneUsesOneFile | deepsmlm/utils/model_io.py:100-102 | with `max_files = -1` as stored by the constructor, the suffix is only ever -1 or 0 |
| ModelIo.UnlimitedRotationsCount | deepsmlm/utils/model_io.py:100-102 | with `max_files = float('inf')` the suffix never wraps: `k` rotations from `s` give `s + k` |
| ModelIo.RotationsCycle | deepsmlm/utils/model_io.py:100-102 | after `k` rotations from suffix `s` the suffix is `(s + k) mod n`, so from -1 the suffixes visit 0, 1, ..., n-1, 0, ... |
| ModelIo.LoadSaveModel.constructor | deepsmlm/utils/model_io.py:24-45 | suffix -1, both timestamps 0 and best infinity, with the defaults one hour, `1e-6` and 3 files, and the limit as `MaxFilesGuard` stores it |
| ModelIo.LoadSaveModel.Save | deepsmlm/utils/model_io.py:80-111 | the new fields and the outcome of the in-place update are exactly those of `SaveStep` from the old fields |
| OrderedDict.Assigned | deepsmlm/utils/emitter_io.py:47 | `d[k] = v` keeps an existing key in its place and appends a new one. The value under `k` becomes `v`, every other entry is unchanged, and keys stay distinct |
| OrderedDict.UpdatedFresh | deepsmlm/utils/emitter_io.py:56-57 | `update` with entries under new keys appends them in their order |
| OrderedDict.Popped | deepsmlm/utils/emitter_io.py:52-53 | `pop(k)` raises a KeyError naming `k` exactly when `k` is absent. Otherwise it returns the value under `k` and the dict without `k` |
| OrderedDict.GetRemoved | deepsmlm/utils/emitter_io.py:52-53 | popping one key leaves the value under every other key as it was |
| OrderedDict.PyDict.Copy | deepsmlm/utils/emitter_io.py:62 | the copy is a new dict with the same entries |
| OrderedDict.PyDict.SetItem | deepsmlm/utils/emitter_io.py:47 | in-place item assignment is `Assigned` of the old entries, and keeps every key occurring once (`Valid`) |
| OrderedDict.PyDict.Update | deepsmlm/utils/emitter_io.py:56-57 | the in-place `update` loop leaves the entries that the successive assignments give, and keeps `Valid` |
| OrderedDict.PyDict.Pop | deepsmlm/utils/emitter_io.py:52-53 | in-place `pop`: KeyError with no change when `k` is absent. Otherwise it returns the value and removes the key |
| EmitterIo.Lookup | deepsmlm/utils/emitter_io.py:27-32 | `data[mapping[key]]` succeeds exactly when the key is mapped to an existing column. The KeyError names the missing mapping key, or else the missing column |
| EmitterIo.StackColumns | deepsmlm/utils/emitter_io.py:27-29 | stacking x, y and z gives one row per entry, with three values each, and column `j` of the stack is the `j`-th input column |
| EmitterIo.Trunc | deepsmlm/utils/emitter_io.py:32 | `.long()` truncates toward zero |
| EmitterIo.LoadCsv | deepsmlm/utils/emitter_io.py:10-39 | (1) Success exactly when x, y, z, phot, frame_ix and, if mapped, id name columns. (2) The default mapping always fails, with `KeyError('frame_ix')` once x, y, z and phot are found. (3) One `xyz` row `(x, y, z)` per table row, and `phot` is its column. (4) `frame_ix` is the truncated column. (5) `id` is present exactly when mapped, and holds the truncated column. (6) Otherwise the first of x, y, z, phot, frame_ix, id (if mapped) without a column raises its KeyError, naming the mapping key or the missing column |
| EmitterIo.ToZeroBased | deepsmlm/utils/emitter_io.py:99 | every frame index is decreased by exactly 1, in place |
| EmitterIo.LoadSmap | deepsmlm/utils/emitter_io.py:68-101 | (1) Success exactly when the coordinates map to fields of one length and phot, frame and bg map to fields. (2) The default mapping always fails, with `KeyError('frame')` once coordinates and phot are found. (3) One `xyz` row per coordinate. (4) `phot` and `bg` are their fields. (5) `frame_ix` is the `frame` field minus 1. (6) Otherwise the first missing of x, y, z raises its KeyError; coordinate fields of different lengths raise a ShapeError; then the first missing of phot, frame, bg raises its KeyError |
| EmitterIo.ConvertDictTorchNumpy | deepsmlm/utils/emitter_io.py:43-48 | the in-place loop turns every tensor into a numpy array with the same contents, keeps keys and order, and leaves no tensor |
| EmitterIo.ColumnOf | deepsmlm/utils/emitter_io.py:55 | `v[:, j]` is column `j` of a two-dimensional array. It raises TypeError on None, and IndexError on a one-dimensional array or when `j` is not below the width |
| EmitterIo.SplitXyz | deepsmlm/utils/emitter_io.py:55 | the split succeeds exactly when the value has at least three columns. Entry `j` is the `j`-th given name paired with `v[:, j]`, for `j` = 0, 1, 2 |
| EmitterIo.OneDim | deepsmlm/utils/emitter_io.py:55-57 | the flattened dict exists exactly when `xyz` and `xyz_cr` both have three columns, and its keys are distinct |
| EmitterIo.ChangeToOneDim | deepsmlm/utils/emitter_io.py:50-59 | a missing `xyz` raises `KeyError('xyz')` first, and a missing `xyz_cr` raises `KeyError('xyz_cr')` next. Success exactly when both are present with three columns |
| EmitterIo.SaveCsv | deepsmlm/utils/emitter_io.py:42-62 | the deep copy, the in-place conversion, the two `pop`s and the two `update`s hand pandas exactly `change_to_one_dim` of the converted dict. The caller's dict is outside the frame and so is unchanged |
| EmitterIo.ColumnOrder | deepsmlm/utils/emitter_io.py:50-59 | when no entry already uses one of the six new names, the columns come out as `x`, `y`, `z`, then the remaining entries in their original order, then `x_cr`, `y_cr`, `z_cr` |
| EmitterIo.WrittenColumns | deepsmlm/utils/emitter_io.py:42-62 | a dict holding a stacked `xyz`, `phot` and `xyz_cr` is written as the seven columns x, y, z, phot, x_cr, y_cr, z_cr, with the stacked coordinates given back |
| EmitterIo.LoadedXyzWrittenBack | deepsmlm/utils/emitter_io.py:27-62 | when the `xyz` that `load_csv` builds is put, with its `phot` and an `xyz_cr` of three columns, into a new dict `{xyz, phot, xyz_cr}`, `save_csv` writes it as exactly the mapped x, y and z columns. This dict is built for the lemma: it drops `frame_ix` and `id` and adds `xyz_cr` |
| EmitterIo.LoadedCsvNotSavable | deepsmlm/utils/emitter_io.py:39-53 | the dict `load_csv` itself returns (`xyz`, `phot`, `frame_ix`, `id`) has no `xyz_cr`, so `save_csv` raises `KeyError('xyz_cr')` on it |

## Left out

- ModelIo.LoadSaveModel.constructor: `max_files` is an integer, `None` or `float('inf')`. A non-integer float such as 2.5, which Python would accept and compare against the suffix, cannot be passed.
- `hash_model` (SHA-1 over file blocks) is not modelled: it is a foreign hash plus file reads.
- `_create_target_folder`, `load_init`, `torch.save` and the `print` calls are left out. They are file-system and framework calls; `save` is modelled from the gate onward, and the written file is its name.
- The three `time.time()` reads in `save` are one parameter `now`. The model therefore does not capture a clock that moves between the rotation test, the name stamp and the save stamp.
- The output path is the string `stem`, which stands for `output_file.with_suffix('')`. A constructor call with `output_file=None`, which fails at the first save, is not modelled, and neither is the `input_file` warm-start path.
- Metrics, thresholds and timestamps are real numbers, not IEEE doubles, and `math.inf` is the constructor `Infinity`. The model therefore does not capture rounding in `metric / best`, NaN metrics or infinite metrics.
- In `load_csv` and `load_smap`, pandas' chunked CSV reading, h5py access to `saveloc/loc`, the `.float()` casts, `permute` and `squeeze` are left out. A file is the named columns it holds, with a CSV table having equally long columns. A SMAP field is its values.
- EmitterIo.LoadSmap: it does not check that `phot`, `frame` and `bg` have the emitters' length, because `load_smap` does not check it either.
- The `DataFrame.from_dict(...).to_csv(file)` step of `save_csv` is not modelled. `SaveCsv` returns the ordered columns, so the model does not capture pandas rejecting columns of unequal length or the CSV text.
- Numpy views are values, so `xyz[:, j]` is a copy of the column. Aliasing between the split columns and the popped arrays is not captured.
- `deepsmlm/neuralfitter/train_test.py`, `deepsmlm/test/test_psf_kernel.py` and the PSF spline engine behind `torch_cubicspline.hpp` are not part of this model. They are training loops, tests and floating-point numerics with no visible bodies.
