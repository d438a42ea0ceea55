# YOLO Model Manager — a Dafny model of its decision core

The model manager is a desktop tool. It lists YOLO model identifiers from a
catalog grouped by version, downloads their weights through ultralytics, and
compiles them into TensorRT engines at fp32, fp16 or int8 precision. This
project models three parts of it:

- **The model store** (`manager.dfy`, module `Manager`):
  - where weight files (`<id>.pt`) and engines (`<id>-<precision>.engine`) live in the weights directory;
  - the presence queries over them;
  - the download and the stub build, which add files;
  - the one-slot cache of the loaded model.
- **The background workers** (`workers.dfy`, module `Workers`, and `export.dfy`, module `ExportWorker`):
  - the stream redirect that echoes non-blank writes as `output` signals;
  - the download worker;
  - the export worker. It checks for the weight file and the calibration file. It rewrites the calibration YAML's `path`, `train` and `val` into absolute paths, writes them to a temporary file, and builds the `yolo export` command. It then decides the outcome from the exit code, renames `<stem>.engine` to `<stem>-<precision>.engine`, and removes the temporary file.
- **The window's decision layer** (`window.dfy`, module `Window`):
  - the selector cascade version → task → model;
  - the button policy;
  - the "task in flight" lifecycle;
  - the arguments given to the export worker.

Three files support them:

- `paths.dfy` (module `PurePath`): a model of the `pathlib` operations used (parse, `str`, `/`, `parent`, `name`, `stem`, `with_name`, `resolve`).
- `text.dfy` (module `Text`): substring tests, `strip`, ASCII `lower` and integer formatting.
- `wrappers.dfy`: `Option`.

How the model represents the outside world:

- The filesystem is the set of paths present. It is passed in, and returned when an operation changes it.
- A Qt signal is an entry appended to a signal log.
- Everything the code asks of the outside world is an input value, and none of it is modelled further:
  - what the ultralytics downloader prints, leaves behind or raises;
  - what `yaml.safe_load` returns;
  - how the subprocess ends;
  - the temporary file name;
  - a failing `os.rename`;
  - the working directory;
  - the GPU and TensorRT probes.
- Each worker's `run` method is proved equal to a reference function (`ExportWorker.Export`, and the trace in `Workers.ModelDownloadWorker.Run`'s contract). The lemmas then state what the source promises about that function.
- The window is a class. Its fields hold the combos' items and current text, the enabled flag of each control, the status labels and cards, the log and the calibration path. Its methods carry the invariant that both combos list exactly what the catalog and the current selection imply.

## Model

| member | source | states |
|---|---|---|
| Manager.WithPt | model_manager/core/model_manager.py:38 | the name always ends in ".pt"; a name already ending in ".pt" is kept, any other gets ".pt" appended |
| Manager.ModelFilePath | model_manager/core/model_manager.py:44-46 | the weight file of a model is a normal path when the weights directory is |
| Manager.EnginePath | model_manager/core/model_manager.py:37-39 | the engine path of a model is a normal path when the weights directory is |
| Manager.CachedModelPath | model_manager/core/model_manager.py:52-54 | a path is returned exactly when the weight file is present, and it is that weight file |
| Manager.ModelFilePathIdempotent | model_manager/core/model_manager.py:44-46 | adding ".pt" to a name, or to a name that lacks it, does not change its weight file |
| Manager.EnginePathOfWeightFile | model_manager/core/model_manager.py:37-39 | the engine of `<base>.pt` is `<weights_dir>/<base>-<precision>.engine` |
| Manager.EnginePathOfIdentifier | model_manager/core/model_manager.py:37-39 | for an identifier without ".pt", the engine is `<weights_dir>/<id>-<precision>.engine`, and `id` and `id.pt` give the same engine path |
| Manager.EnginePathOfDoublePt | model_manager/core/model_manager.py:37-39 | only one ".pt" is removed: `<base>.pt.pt` and `<base>.pt` have different engine paths |
| Manager.ModelManager.constructor | model_manager/core/model_manager.py:16-19 | it keeps the weights directory, and the cache starts empty |
| Manager.ModelManager.ClearModel | model_manager/core/model_manager.py:98-104 | both cache fields are cleared, after which `get_model` gives None |
| Manager.ModelManager.LoadModel | model_manager/core/model_manager.py:59-80 | same path already loaded: true and nothing reloaded; successful load: both fields set to the model and the path string; failed load: both fields cleared and false |
| Manager.ModelManager.DownloadModel | model_manager/core/model_manager.py:82-96 | weight file present: true, and the delegate is not run; otherwise the files gain the weight file iff the delegate created it, and the result is true iff the delegate did not raise and the file now exists; true implies `is_model_downloaded` |
| Manager.ModelManager.BuildEngine | model_manager/core/model_manager.py:111-120 | the engine path is added to the files, the result is true, and `engine_exists` holds afterwards |
| Workers.StreamRedirect.Write | model_manager/core/worker_threads.py:24-27 | the text always reaches the wrapped stream; an `output` signal carrying the text is emitted iff the text is not all whitespace |
| Workers.WriteTestsStrip | model_manager/core/worker_threads.py:25 | the emit test is exactly `text.strip()` being non-empty |
| Workers.Echoed | model_manager/core/worker_threads.py:24-50 | the signals raised by a sequence of writes are all `output`, and there are no more of them than writes |
| Workers.Delivered | model_manager/core/worker_threads.py:27 | each write reaches the stream its redirect wraps, one for one and in order |
| Workers.EchoedExactlyNonBlank | model_manager/core/worker_threads.py:24-27 | `output(text)` is among the echoed signals iff the text is not blank and some write carried it |
| Workers.VerdictShape | model_manager/core/worker_threads.py:61-71 | the download ends with one `output` line and `download_complete`, whose flag is true iff nothing was raised and the weight file exists |
| Workers.Relay | model_manager/core/worker_threads.py:47-50 | the loop over the delegate's writes yields exactly `Echoed` and `Delivered` |
| Workers.ModelDownloadWorker.Run | model_manager/core/worker_threads.py:44-74 | the log is the start line, the echoed writes, then the verdict; `download_complete` comes exactly once and last, and succeeds iff the delegate did not raise and `<weights_dir>/<model>.pt` exists; the streams are restored |
| Workers.LogEndsWithVerdict | model_manager/core/worker_threads.py:57-71 | output lines followed by the verdict end in exactly one terminal signal |
| ExportWorker.Failure | model_manager/core/worker_threads.py:196-201 | a handler emits one `output` line and then a failing `done` carrying `str(e)` |
| ExportWorker.RebaseCalibration | model_manager/core/worker_threads.py:132-141 | the in-place rewrite of the mapping equals the reference `Rebase` |
| ExportWorker.RebaseFaultIff | model_manager/core/worker_threads.py:136-141 | the rewrite fails iff `path`, `train` or `val` holds something other than a string |
| ExportWorker.RebaseKeepsOthers | model_manager/core/worker_threads.py:136-141 | a successful rewrite keeps the set of keys and copies every other key unchanged |
| ExportWorker.RebaseValues | model_manager/core/worker_threads.py:136-141 | `path` is always anchored at the YAML's directory; `train` and `val` are anchored when relative and kept when absolute |
| ExportWorker.AnchoredFixed | model_manager/core/worker_threads.py:137-141 | an anchored path is absolute, and anchoring it again changes nothing |
| ExportWorker.RebasedAbsolute | model_manager/core/worker_threads.py:136-141 | after a successful rewrite, `path`, `train` and `val`, where present, are absolute strings |
| ExportWorker.RebaseIdempotent | model_manager/core/worker_threads.py:136-141 | rewriting the rewritten mapping again gives it back unchanged |
| ExportWorker.GenericEngine | model_manager/core/worker_threads.py:163-165 | the generic engine is named `<stem>.engine` |
| ExportWorker.GenericEngineIsJoin | model_manager/core/worker_threads.py:163-165 | the generic engine is the model's parent joined with `<stem>.engine` |
| ExportWorker.ExportCommand | model_manager/core/worker_threads.py:112-150 | the command starts with `yolo export model=<path> format=engine device=<dev>`; fp16 adds exactly `half`; int8 adds `int8` and `data=<temp>`; any other precision adds nothing |
| ExportWorker.ProgressLines | model_manager/core/worker_threads.py:159-160 | one `output` per subprocess line, stripped, in order |
| ExportWorker.EmitProgress | model_manager/core/worker_threads.py:159-160 | the loop over `proc.stdout` emits exactly `ProgressLines` of the lines it read |
| ExportWorker.EngineExportWorker.constructor | model_manager/core/worker_threads.py:83-94 | the worker keeps its four arguments |
| ExportWorker.EngineExportWorker.PrepareCommand | model_manager/core/worker_threads.py:112-150 | the command building and the int8 checks equal the reference `Prepare` |
| ExportWorker.EngineExportWorker.DecideOutcome | model_manager/core/worker_threads.py:162-194 | the branches on the exit code and on the engine file equal the reference `Verdict` |
| ExportWorker.EngineExportWorker.RunProcess | model_manager/core/worker_threads.py:152-198 | the subprocess and the decision after it equal the reference `Launched`: a process that cannot start fails at once; one whose output cannot be read emits the lines read so far, then the handler's failure, and may leave the generic engine behind; one that exited goes to the verdict |
| ExportWorker.EngineExportWorker.RunPrepared | model_manager/core/worker_threads.py:143-204 | writing the temporary file, running the subprocess and removing the file in `finally` equal the reference `ReadyTrace` |
| ExportWorker.EngineExportWorker.BuildFromWeights | model_manager/core/worker_threads.py:108-201 | the run after the weights check equals the reference `Started` |
| ExportWorker.EngineExportWorker.Run | model_manager/core/worker_threads.py:97-204 | the whole run equals the reference `Export`; a missing weight file fails first |
| ExportWorker.OutputsThenDoneSingle | model_manager/core/worker_threads.py:174-201 | an `output`-then-`done` log has exactly one terminal signal |
| ExportWorker.ExportShape | model_manager/core/worker_threads.py:97-204 | every run's log is `output` lines followed by one `done` for the worker's model and precision |
| ExportWorker.ExportEndsWithOneDone | model_manager/core/worker_threads.py:97-204 | on every path `done` is emitted exactly once, last, with the worker's `model_name` and `precision` unchanged; everything before it is `output` |
| ExportWorker.ExportMissingWeights | model_manager/core/worker_threads.py:101-198 | without `<weights_dir>/<model>.pt` the run fails with the "Model file not found" error; no command is run, no temporary file is written, nothing changes |
| ExportWorker.ExportInt8NeedsCalibration | model_manager/core/worker_threads.py:122-198 | int8 with no calibration path, or with one that does not exist, fails with the calibration error; no subprocess, no temporary file, nothing changes |
| ExportWorker.PrepareOutcome | model_manager/core/worker_threads.py:112-150 | the preparation succeeds iff, for int8, a calibration path is set, the file exists and its rewrite succeeds; it then holds `ExportCommand`, and data for the temporary file exactly for int8, which is the rewritten calibration mapping |
| ExportWorker.ExportCommandIssued | model_manager/core/worker_threads.py:103-152 | the subprocess runs iff the weights exist and, for int8, the calibration file exists and rewrites cleanly; it runs `ExportCommand`; the temporary file holds the rewritten data exactly for int8 |
| ExportWorker.ExportRemovesTemp | model_manager/core/worker_threads.py:202-204 | a temporary file that was written no longer exists when the run ends |
| ExportWorker.VerdictOutcome | model_manager/core/worker_threads.py:162-194 | success iff exit code 0, the generic engine present and the rename clean; on success the generic file is replaced by the tagged one; on failure the files are unchanged; the log is `output` lines and then one `done` |
| ExportWorker.ExitedOutcome | model_manager/core/worker_threads.py:159-194 | after a subprocess that exited, the run succeeds iff the exit code is 0, the generic engine exists (produced or already there) and the rename is clean; success renames exactly that engine, failure at most adds it |
| ExportWorker.LaunchedOutcome | model_manager/core/worker_threads.py:152-201 | success iff the subprocess started, its output was read to the end, it exited 0, the generic engine exists afterwards, and the rename is clean; a failure, including one while reading the output, renames nothing and at most adds the generic engine |
| ExportWorker.TempIsNoEngine | model_manager/core/worker_threads.py:143-168 | the `.yaml` temporary file is neither the generic nor the renamed engine |
| ExportWorker.ExportOutcome | model_manager/core/worker_threads.py:97-204 | success iff the command ran, the exit code was 0, the generic engine is present and the rename went through; then exactly `<stem>.engine` becomes `<stem>-<precision>.engine`; a failed run renames nothing and at most adds the generic engine |
| ExportWorker.ProceedOutcome | model_manager/core/worker_threads.py:108-204 | the same decision once the weights are known to exist, for any outcome of the preparation |
| ExportWorker.ExportRelaysProgress | model_manager/core/worker_threads.py:108-160 | once the subprocess has started, the lines read from it follow the start line, stripped and in order, whether it exited or reading its output failed |
| ExportWorker.WeightsFileOfIdentifier | model_manager/core/worker_threads.py:101 | `<dir>/<id>.pt` is one more part, whose stem is the identifier |
| ExportWorker.GenericEngineOfIdentifier | model_manager/core/worker_threads.py:101-165 | the generic engine of `<id>.pt` is `<dir>/<id>.engine` |
| ExportWorker.WorkerMatchesManager | model_manager/core/worker_threads.py:101-169 | for an identifier without ".pt", the worker reads the manager's weight file and renames its engine to `get_engine_path(model, precision)` |
| ExportWorker.WorkerDoublesSuffix | model_manager/core/worker_threads.py:101 | an identifier given with ".pt" is looked up by the worker as `<id>.pt.pt`, which is not the manager's weight file |
| ExportWorker.ExportSuccessMeansEngineExists | model_manager/core/model_manager.py:37-50 | a successful export of an identifier without ".pt" means `engine_exists` now holds, and the weight file is still there, so `is_model_downloaded` holds too |
| Window.Rank | model_manager/ui/model_manager_window.py:374-378 | the sort key is the category's position in the fixed order Detection, Segmentation, Pose, OBB, Classification |
| Window.Classify | model_manager/ui/model_manager_window.py:361-371 | the first marker found, tested in the order "-pose", "-seg", "-obb", "-cls", decides: each of Pose, Segmentation, OBB and Classification holds iff its marker occurs and no earlier one does; Detection iff none of the four occurs |
| Window.CatalogModels | model_manager/ui/model_manager_window.py:359 | a version the catalog lacks has no models |
| Window.Categories | model_manager/ui/model_manager_window.py:360-371 | one category per identifier, each its classification |
| Window.CollectCategories | model_manager/ui/model_manager_window.py:360-371 | the loop over the catalog list collects exactly `Categories` of it |
| Window.InOrderMembers | model_manager/ui/model_manager_window.py:372-379 | a category is kept iff it is in the order and among the categories found |
| Window.InOrderIsSubsequence | model_manager/ui/model_manager_window.py:372-379 | the sorted set is a subsequence of the fixed order |
| Window.InOrderRanks | model_manager/ui/model_manager_window.py:372-379 | filtering an order with strictly increasing ranks keeps them strictly increasing |
| Window.TaskListOrdered | model_manager/ui/model_manager_window.py:372-379 | the list of categories is a subsequence of the fixed order, with strictly increasing ranks and no duplicates |
| Window.TaskListMembers | model_manager/ui/model_manager_window.py:359-379 | a category is listed iff some model of the version is classified as it |
| Window.TaskListOfNothing | model_manager/ui/model_manager_window.py:359 | an unknown version lists no task |
| Window.FilterModels | model_manager/ui/model_manager_window.py:390-403 | the loop over the catalog list collects exactly `Filtered` of it, in catalog order |
| Window.FilteredIsSubsequence | model_manager/ui/model_manager_window.py:390-403 | the model list is a subsequence of the version's catalog list, in catalog order |
| Window.FilteredMembers | model_manager/ui/model_manager_window.py:390-403 | an identifier is listed iff it is in the catalog list and passes the current task's filter |
| Window.ClassifiedMatches | model_manager/ui/model_manager_window.py:361-403 | every identifier passes the filter of its own category |
| Window.ClassifiedAreListed | model_manager/ui/model_manager_window.py:386-403 | every model that classifies as t appears in the list for t |
| Window.MultiMarkerListedElsewhere | model_manager/ui/model_manager_window.py:362-399 | the converse fails: `<base>-seg-pose` is listed under Segmentation but classified as Pose |
| Window.OneMarkerAgrees | model_manager/ui/model_manager_window.py:361-403 | with at most one marker, passing the filter of t is the same as classifying as t |
| Window.FolderProbes | model_manager/ui/model_manager_window.py:423-452 | the window's probes are the manager's `is_model_downloaded` (called with "Yolov8") and `engine_exists` over the weights folder |
| Window.Policy | model_manager/ui/model_manager_window.py:411-459 | Download is enabled iff a model is selected; fp32 and fp16 iff a model is selected, it is downloaded and GPU and TensorRT are present; int8 iff that and a calibration path is set |
| Window.CalibrationOnlyAffectsInt8 | model_manager/ui/model_manager_window.py:456-459 | the calibration path changes only the int8 button |
| Window.BuildLabelOmitsInt8 | model_manager/ui/model_manager_window.py:446-472 | a Build button's text ("Build" or "Rebuild") never contains "INT8" |
| Window.ButtonText | model_manager/ui/model_manager_window.py:454-472 | the int8 button's text never contains "INT8", so the calibration-tooltip branch is unreachable |
| Window.Outcome | model_manager/ui/model_manager_window.py:571-574 | the outcome line is ✅ or ❌ by success, a space, then the message |
| Window.ExportArguments | model_manager/ui/model_manager_window.py:516-525 | the precision is lower-cased, the device is always `cuda:0`, and the calibration path is passed exactly for int8 and is None otherwise |
| Window.Refreshed | model_manager/ui/model_manager_window.py:441-454 | a refreshed card shows the engine as built, and its button reads "Rebuild", iff the engine exists; its tooltip is kept |
| Window.ModelManagerWindow.CalibrationLabel | model_manager/ui/model_manager_window.py:616-623 | the label is the chosen file's name in italics, or "None selected" |
| Window.ModelManagerWindow.CalibrationToolTip | model_manager/ui/model_manager_window.py:618-626 | the tooltip is the chosen file's full path, or the default explanation of the calibration dataset when none is chosen |
| Window.ModelManagerWindow.constructor | model_manager/ui/model_manager_window.py:72-82 | the window keeps the catalog and the weights directory, shows the first version, has no calibration file, an empty log and every control enabled |
| Window.OpenWindow | model_manager/ui/model_manager_window.py:72-83 | after `__init__`, the cascade has run once: the first version is shown, there is no calibration, both combos are consistent, the buttons and tooltips follow the policy, and the six other controls are enabled |
| Window.ModelManagerWindow.ClearStatus | model_manager/ui/model_manager_window.py:412-421 | with no model: no status, no engine shown as built, Download and the three Build buttons disabled |
| Window.ModelManagerWindow.ExplainCards | model_manager/ui/model_manager_window.py:461-475 | no GPU or TensorRT: every Build tooltip asks for them; else weights missing: every Build tooltip asks for the download; else nothing changes, and the calibration hint is never set |
| Window.ModelManagerWindow.UpdateModelStatus | model_manager/ui/model_manager_window.py:410-475 | the labels follow the probes, the four buttons follow `Policy`, the tooltips explain a disabled Build button, and the other six controls are unchanged |
| Window.ModelManagerWindow.UpdateModels | model_manager/ui/model_manager_window.py:386-408 | the model combo holds exactly the catalog models the current task keeps, in order; it shows the first; the status is refreshed |
| Window.ModelManagerWindow.UpdateTasks | model_manager/ui/model_manager_window.py:357-384 | the category combo holds `sorted(set(categories))`; it shows the first; the models and the status follow |
| Window.ModelManagerWindow.SelectVersion | model_manager/ui/model_manager_window.py:357-384 | a new version re-lists the categories of its catalog and shows the first; the models of that category are listed and the first shown; the status follows; the six controls other than Download and Build keep their flags |
| Window.ModelManagerWindow.SelectTask | model_manager/ui/model_manager_window.py:386-408 | a new task re-lists the models it keeps and shows the first; the status follows; the six other controls keep their flags |
| Window.ModelManagerWindow.SelectModel | model_manager/ui/model_manager_window.py:410-475 | a new model refreshes the status for that model, and the six other controls keep their flags |
| Window.ModelManagerWindow.SetUiEnabled | model_manager/ui/model_manager_window.py:598-609 | all ten controls take the given state, and nothing else changes |
| Window.ModelManagerWindow.StartTask | model_manager/ui/model_manager_window.py:486-514 | the log is cleared and holds the start line, the progress bar runs, and every control is disabled |
| Window.ModelManagerWindow.DownloadModel | model_manager/ui/model_manager_window.py:478-499 | with no model nothing changes; otherwise a job starts and a download worker for the shown model is made |
| Window.ModelManagerWindow.BuildEngine | model_manager/ui/model_manager_window.py:500-531 | with no model nothing changes; otherwise a job starts and an export worker with `ExportArguments` is made |
| Window.ModelManagerWindow.CommonTaskCleanup | model_manager/ui/model_manager_window.py:559-574 | the progress bar stops, every control is enabled, and the log gains the "Task Finished" line and the outcome |
| Window.ModelManagerWindow.OnTaskDone | model_manager/ui/model_manager_window.py:534-557 | after the cleanup the policy runs again: the four buttons end as `Policy` says, not all enabled; the other six stay enabled |
| Window.ModelManagerWindow.SelectCalibrationData | model_manager/ui/model_manager_window.py:611-627 | a chosen file becomes the calibration path, and an empty answer clears it to None; the status is refreshed; the six other controls keep their flags; with no model the Download text and the tooltips are kept, and when every condition is met the tooltips are kept; when the window already showed the same probes, only the calibration and the INT8 button change |
| Window.ModelManagerWindow.AppendLog | model_manager/ui/model_manager_window.py:577-579 | a line of worker output is appended to the log, and nothing else changes |

## Left out

- Qt layout, styling and HTML markup (`_setup_ui`, `status_icon`, `status_markup`): presentation only. A status label is modelled as the boolean it shows.
- Threads, `moveToThread`, the signal and slot wiring, `processEvents` and `closeEvent`: concurrency plumbing. A signal is an entry in a log, and the window's completion slots are modelled as one method, `OnTaskDone`, that the caller invokes.
- Message boxes (`QMessageBox`): messages to the user with no effect on the state modelled. The connection of a worker's `output` signal to `_append_log` is wiring the caller performs; `AppendLog` models the slot.
- Combo box behaviour is not modelled, by assumption: after `clear()` and `addItems()` the current item is the first one, or empty when there are none.
- `_open_models_directory`, `load_model_data_from_json`, `list_all_models_by_version`, `list_cached_models`, `is_engine_built`, `can_download_model` and the application's entry point: OS integration, JSON loading, or one-line wrappers outside the modelled flows.
- `mkdir` of the weights directory and of the engine's parent, and `time.sleep` in the `build_engine` stub: directories are not part of the path-set filesystem.
- The GPU probe (`torch.cuda.is_available`) and the TensorRT import probe: two booleans in `Probes`. The window reads the weights folder through abstract probe functions, which `FolderProbes` ties to the manager's presence reads.
- ultralytics, `subprocess.Popen`, `yaml.safe_load`/`yaml.dump`, `tempfile` and `os.rename` are inputs describing their outcome, not models of them. A temporary file that cannot be created is not modelled.
- ExportWorker.ExportOutcome: requires that the temporary file does not exist beforehand and that its name ends in ".yaml", which is what `NamedTemporaryFile(delete=False, suffix=".yaml")` guarantees. The same requirement is on ProceedOutcome, TempIsNoEngine and ExportSuccessMeansEngineExists.
- YAML documents that are lists or strings, and byte strings as values: `YamlValue` has string values and one "other" case. A non-mapping document is one scalar case that fails the `in` test.
- `Path.resolve` is modelled without symbolic links, as the normalisation of `.` and `..` against the working directory.
- `with_name`'s validation of the new name is not modelled; the names used always hold a single part.
- `precision.lower()` is modelled as ASCII lower-casing only.
- The default arguments of `EngineExportWorker` (`fp16`, `cuda`, None) are not modelled; the window always passes all four.
- `model_data or {}` in the window's constructor: the catalog is given as a map whose keys are the version list.
- Manager.ModelManager.LoadModel: the truth test on the cached model object is modelled as "a model is cached". `YOLO(full_path)` may download a missing weight file; the method takes and returns no file set, so that effect is not modelled; what `YOLO(full_path)` returns or raises is the `construct` input.
- The download worker's `sys.stdout`/`sys.stderr` reassignment is modelled as the `Streams` value seen by the relay and restored in the trace. The `flush` method is not modelled.
- The fp32/fp16 loop of `_update_model_status` over two (precision, label, button) triples is modelled as two straight-line card refreshes.
