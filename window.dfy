/**
 * The decision layer of `ModelManagerWindow`: the cascade of selectors
 * (version -> task -> model), the button policy that follows the selected
 * model, the "task in flight" lifecycle that disables and re-enables every
 * control, and the arguments handed to the export worker.
 *
 * Widgets are reduced to what the decision layer reads and writes: the items
 * and current text of each combo, the enabled flag of each control, the text
 * of each status label and button, the tooltips, and the log as a sequence
 * of appended lines. The GPU and TensorRT probes and the weights folder are
 * passed in as a `Probes` value each time the policy runs.
 */
module Window {
  import opened Wrappers
  import opened Text
  import opened PurePath
  import opened Manager
  import Workers
  import ExportWorker

  // ----- Task categories -----

  datatype Task = Detection | Segmentation | Pose | Obb | Classification

  /** The fixed order in which the category combo lists the categories. */
  const AllTasks: seq<Task> := [Detection, Segmentation, Pose, Obb, Classification]

  /** The text the category combo shows for a category. */
  function TaskName(t: Task): string {
    match t
    case Detection => "Detection"
    case Segmentation => "Segmentation"
    case Pose => "Pose"
    case Obb => "OBB"
    case Classification => "Classification"
  }

  /** The sort key: the position of a category in the fixed order. */
  function Rank(t: Task): (k: nat)
    ensures k < |AllTasks| && AllTasks[k] == t
  {
    match t
    case Detection => 0
    case Segmentation => 1
    case Pose => 2
    case Obb => 3
    case Classification => 4
  }

  /**
   * The category of a catalog identifier, by substring priority: "-pose"
   * first, then "-seg", "-obb", "-cls", and Detection when none occurs.
   */
  function Classify(m: string): (t: Task)
    ensures Contains(m, "-pose") <==> t == Pose
    ensures t == Segmentation <==> !Contains(m, "-pose") && Contains(m, "-seg")
    ensures t == Obb <==> !Contains(m, "-pose") && !Contains(m, "-seg") && Contains(m, "-obb")
    ensures t == Classification <==>
      !Contains(m, "-pose") && !Contains(m, "-seg") && !Contains(m, "-obb") && Contains(m, "-cls")
    ensures t == Detection <==>
      !Contains(m, "-pose") && !Contains(m, "-seg") && !Contains(m, "-obb") && !Contains(m, "-cls")
  {
    if Contains(m, "-pose") then Pose
    else if Contains(m, "-seg") then Segmentation
    else if Contains(m, "-obb") then Obb
    else if Contains(m, "-cls") then Classification
    else Detection
  }

  /** The test the model filter applies for one category. */
  predicate Matches(t: Task, m: string) {
    match t
    case Detection => !(Contains(m, "-seg") || Contains(m, "-pose") || Contains(m, "-obb") || Contains(m, "-cls"))
    case Segmentation => Contains(m, "-seg")
    case Pose => Contains(m, "-pose")
    case Obb => Contains(m, "-obb")
    case Classification => Contains(m, "-cls")
  }

  /** The catalog list of a version, empty for a version the catalog does not know. */
  function CatalogModels(data: map<string, seq<string>>, version: string): (ms: seq<string>)
    ensures version !in data ==> ms == []
  {
    if version in data then data[version] else []
  }

  // ----- Sequences -----

  /** `a` is `b` with some elements left out, the rest in their order. */
  predicate Subsequence<T(==)>(a: seq<T>, b: seq<T>)
    decreases |b|
  {
    a == [] ||
    (b != [] &&
     ((a[|a| - 1] == b[|b| - 1] && Subsequence(a[..|a| - 1], b[..|b| - 1])) || Subsequence(a, b[..|b| - 1])))
  }

  predicate NoDuplicates<T(==)>(s: seq<T>) {
    forall i, j :: 0 <= i < j < |s| ==> s[i] != s[j]
  }

  // ----- The list of categories -----

  /** The categories of a catalog list, one per identifier, as `_update_tasks` collects them. */
  function Categories(ms: seq<string>): (cs: seq<Task>)
    ensures |cs| == |ms| && forall i :: 0 <= i < |ms| ==> cs[i] == Classify(ms[i])
  {
    seq(|ms|, i requires 0 <= i < |ms| => Classify(ms[i]))
  }

  /** The elements of `order` that occur in `found`, in the order of `order`, each once. */
  function InOrder(order: seq<Task>, found: seq<Task>): seq<Task>
    decreases |order|
  {
    if order == [] then []
    else
      var last := order[|order| - 1];
      InOrder(order[..|order| - 1], found) + (if last in found then [last] else [])
  }

  /** `sorted(set(found), key=rank)`. */
  function SortedDistinct(found: seq<Task>): seq<Task> {
    InOrder(AllTasks, found)
  }

  /** The items of the category combo for a catalog list. */
  function TaskList(ms: seq<string>): seq<Task> {
    SortedDistinct(Categories(ms))
  }

  lemma {:induction false} InOrderMembers(order: seq<Task>, found: seq<Task>, t: Task)
    ensures t in InOrder(order, found) <==> t in order && t in found
    decreases |order|
  {
    if order != [] {
      var init := order[..|order| - 1];
      InOrderMembers(init, found, t);
      assert order == init + [order[|order| - 1]];
    }
  }

  lemma {:induction false} InOrderIsSubsequence(order: seq<Task>, found: seq<Task>)
    ensures Subsequence(InOrder(order, found), order)
    decreases |order|
  {
    if order != [] {
      var init := order[..|order| - 1];
      var r := InOrder(init, found);
      InOrderIsSubsequence(init, found);
      if order[|order| - 1] in found {
        var s := r + [order[|order| - 1]];
        assert s[..|s| - 1] == r;
      } else {
        assert InOrder(order, found) == r;
      }
    }
  }

  /** Every task comes strictly after the ones before it in the fixed order. */
  predicate RanksIncrease(s: seq<Task>) {
    forall i, j :: 0 <= i < j < |s| ==> Rank(s[i]) < Rank(s[j])
  }

  /** Filtering an order whose ranks increase keeps them increasing. */
  lemma {:induction false} InOrderRanks(order: seq<Task>, found: seq<Task>)
    requires RanksIncrease(order)
    ensures RanksIncrease(InOrder(order, found))
    decreases |order|
  {
    if order != [] {
      var init := order[..|order| - 1];
      var last := order[|order| - 1];
      var r := InOrder(init, found);
      assert RanksIncrease(init) by {
        assert forall i :: 0 <= i < |init| ==> init[i] == order[i];
      }
      InOrderRanks(init, found);
      if last in found {
        forall k | 0 <= k < |r|
          ensures Rank(r[k]) < Rank(last)
        {
          InOrderMembers(init, found, r[k]);
          var n :| 0 <= n < |init| && init[n] == r[k];
          assert order[n] == r[k];
        }
        var s := r + [last];
        assert InOrder(order, found) == s;
        forall i, j | 0 <= i < j < |s|
          ensures Rank(s[i]) < Rank(s[j])
        {
          assert s[i] == r[i];
          if j < |r| {
            assert s[j] == r[j];
          } else {
            assert s[j] == last;
          }
        }
      } else {
        assert InOrder(order, found) == r;
      }
    }
  }

  lemma AllTasksRanks()
    ensures RanksIncrease(AllTasks)
  {
    assert forall i :: 0 <= i < |AllTasks| ==> Rank(AllTasks[i]) == i;
  }

  /** The category combo lists categories in the fixed order, each at most once. */
  lemma TaskListOrdered(ms: seq<string>)
    ensures Subsequence(TaskList(ms), AllTasks)
    ensures RanksIncrease(TaskList(ms))
    ensures NoDuplicates(TaskList(ms))
  {
    var found := Categories(ms);
    InOrderIsSubsequence(AllTasks, found);
    AllTasksRanks();
    InOrderRanks(AllTasks, found);
    assert TaskList(ms) == InOrder(AllTasks, found);
  }

  /** The category combo holds exactly the categories of the version's models. */
  lemma TaskListMembers(ms: seq<string>, t: Task)
    ensures t in TaskList(ms) <==> exists i :: 0 <= i < |ms| && Classify(ms[i]) == t
  {
    var cs := Categories(ms);
    InOrderMembers(AllTasks, cs, t);
    assert t in AllTasks by { assert AllTasks[Rank(t)] == t; }
    if t in cs {
      var i :| 0 <= i < |cs| && cs[i] == t;
      assert Classify(ms[i]) == t;
    }
    if exists i :: 0 <= i < |ms| && Classify(ms[i]) == t {
      var i :| 0 <= i < |ms| && Classify(ms[i]) == t;
      assert cs[i] == t;
    }
  }

  /** A version with no models (in particular one the catalog lacks) lists no task. */
  lemma TaskListOfNothing(data: map<string, seq<string>>, version: string)
    requires version !in data
    ensures TaskList(CatalogModels(data, version)) == []
  {
    var ms := CatalogModels(data, version);
    if TaskList(ms) != [] {
      TaskListMembers(ms, TaskList(ms)[0]);
      assert false;
    }
  }

  // ----- The model filter -----

  /** Whether `_update_models` keeps an identifier under the current task text (None: empty combo). */
  predicate Keep(task: Option<Task>, m: string) {
    task.Some? && Matches(task.value, m)
  }

  /** The items of the model combo: the catalog list filtered by the current task. */
  function Filtered(task: Option<Task>, ms: seq<string>): seq<string>
    decreases |ms|
  {
    if ms == [] then []
    else Filtered(task, ms[..|ms| - 1]) + (if Keep(task, ms[|ms| - 1]) then [ms[|ms| - 1]] else [])
  }

  /** The filter keeps catalog order and only drops identifiers. */
  lemma {:induction false} FilteredIsSubsequence(task: Option<Task>, ms: seq<string>)
    ensures Subsequence(Filtered(task, ms), ms)
    decreases |ms|
  {
    if ms != [] {
      var init := ms[..|ms| - 1];
      var r := Filtered(task, init);
      FilteredIsSubsequence(task, init);
      if Keep(task, ms[|ms| - 1]) {
        var s := r + [ms[|ms| - 1]];
        assert s[..|s| - 1] == r;
      } else {
        assert Filtered(task, ms) == r;
      }
    }
  }

  /** An identifier is listed exactly when it is in the catalog list and passes the filter. */
  lemma {:induction false} FilteredMembers(task: Option<Task>, ms: seq<string>, m: string)
    ensures m in Filtered(task, ms) <==> m in ms && Keep(task, m)
    decreases |ms|
  {
    if ms != [] {
      var init := ms[..|ms| - 1];
      FilteredMembers(task, init, m);
      assert ms == init + [ms[|ms| - 1]];
    }
  }

  /** Every identifier passes the filter of its own category. */
  lemma ClassifiedMatches(m: string)
    ensures Matches(Classify(m), m)
  {
  }

  /** Every model of the version is listed under the category it is classified as. */
  lemma ClassifiedAreListed(ms: seq<string>, i: nat)
    requires i < |ms|
    ensures ms[i] in Filtered(Some(Classify(ms[i])), ms)
  {
    ClassifiedMatches(ms[i]);
    FilteredMembers(Some(Classify(ms[i])), ms, ms[i]);
  }

  /**
   * The converse fails for identifiers with two markers: `<base>-seg-pose`
   * is listed under Segmentation but classified as Pose.
   */
  lemma MultiMarkerListedElsewhere(base: string)
    ensures var m := base + "-seg-pose"; Classify(m) == Pose && Matches(Segmentation, m)
  {
    var m := base + "-seg-pose";
    assert m[|base|..|base| + 4] == "-seg";
    ContainsAt(m, "-seg", |base|);
    assert m[|base| + 4..|base| + 9] == "-pose";
    ContainsAt(m, "-pose", |base| + 4);
  }

  /** With at most one marker, the filter and the classification agree. */
  lemma OneMarkerAgrees(m: string, t: Task)
    requires (if Contains(m, "-pose") then 1 else 0) + (if Contains(m, "-seg") then 1 else 0) +
             (if Contains(m, "-obb") then 1 else 0) + (if Contains(m, "-cls") then 1 else 0) <= 1
    ensures Matches(t, m) <==> Classify(m) == t
  {
  }

  // ----- The button policy -----

  /**
   * What the window asks when the policy runs: whether a model's weights are
   * downloaded, whether its engine at a precision exists, whether a GPU is
   * available and whether TensorRT is installed. `FolderProbes` gives the
   * answers the model manager reads from a weights folder.
   */
  datatype Probes = Probes(downloaded: string -> bool, built: (string, string) -> bool, gpu: bool, tensorrt: bool)

  /** The probes of a weights folder holding `files`, through the model manager's presence reads. */
  function FolderProbes(files: set<Path>, weightsDir: Path, gpu: bool, tensorrt: bool): (env: Probes)
    ensures forall m :: env.downloaded(m) == IsModelDownloaded(files, weightsDir, "Yolov8", m)
    ensures forall m, p :: env.built(m, p) == EngineExists(files, weightsDir, m, p)
    ensures env.gpu == gpu && env.tensorrt == tensorrt
  {
    Probes(m => IsModelDownloaded(files, weightsDir, "Yolov8", m), (m, p) => EngineExists(files, weightsDir, m, p),
           gpu, tensorrt)
  }

  /** The enabled flags of the Download button and the three Build buttons. */
  datatype Buttons = Buttons(download: bool, fp32: bool, fp16: bool, int8: bool)

  /** The enabled flags of all ten controls. */
  datatype Controls = Controls(version: bool, task: bool, model: bool, download: bool,
                               fp32: bool, fp16: bool, int8: bool,
                               calibrationPicker: bool, openModels: bool, clearLog: bool)

  function AllControls(enabled: bool): Controls {
    Controls(enabled, enabled, enabled, enabled, enabled, enabled, enabled, enabled, enabled, enabled)
  }

  /** The enablement rule of `_update_model_status`. */
  function Policy(modelSelected: bool, downloaded: bool, gpu: bool, tensorrt: bool, calibrated: bool): (b: Buttons)
    ensures b.download <==> modelSelected
    ensures b.fp32 <==> modelSelected && downloaded && gpu && tensorrt
    ensures b.fp16 == b.fp32
    ensures b.int8 <==> b.fp32 && calibrated
  {
    if !modelSelected then Buttons(false, false, false, false)
    else
      var canBuild := downloaded && gpu && tensorrt;
      Buttons(true, canBuild, canBuild, canBuild && calibrated)
  }

  /** Choosing or dropping a calibration file can only change the INT8 button. */
  lemma CalibrationOnlyAffectsInt8(selected: bool, downloaded: bool, gpu: bool, tensorrt: bool, c1: bool, c2: bool)
    ensures var b1 := Policy(selected, downloaded, gpu, tensorrt, c1);
      var b2 := Policy(selected, downloaded, gpu, tensorrt, c2);
      b1.download == b2.download && b1.fp32 == b2.fp32 && b1.fp16 == b2.fp16
  {
  }

  /** The tooltips `_update_model_status` can give a Build button (NoHint: none set yet). */
  datatype Hint = NoHint | NeedsGpu | NeedsDownload | NeedsCalibration

  function HintText(h: Hint): string {
    match h
    case NoHint => ""
    case NeedsGpu => "Building a TensorRT engine requires a CUDA-enabled GPU and TensorRT to be installed."
    case NeedsDownload => "Please download the model first before building an engine."
    case NeedsCalibration => "Select a calibration YAML to enable INT8 build."
  }

  const TaskFinished := "\n--- Task Finished ---"

  function BuildLabel(built: bool): string {
    if built then "Rebuild" else "Build"
  }

  function DownloadLabel(downloaded: bool): string {
    if downloaded then "Re-download Model" else "Download Model"
  }

  /** A Build button never says "INT8", so the calibration tooltip cannot be set by the policy. */
  lemma BuildLabelOmitsInt8(built: bool)
    ensures !Contains(BuildLabel(built), "INT8")
  {
    var text := BuildLabel(built);
    assert 'I' !in text;
    NotContainsWithoutFirst(text, "INT8");
  }

  /** The last line the log shows for a finished task. */
  function Outcome(success: bool, message: string): (line: string)
    ensures |line| == |message| + 2 && line[1] == ' ' && line[2..] == message
    ensures line[0] == (if success then '\U{2705}' else '\U{274C}')
  {
    (if success then "\U{2705} " else "\U{274C} ") + message
  }

  // ----- The export worker's arguments -----

  datatype ExportRequest = ExportRequest(modelName: string, precision: string, device: string, calibration: Option<Path>)

  /**
   * The arguments `_build_engine` gives the export worker: the precision in
   * lower case, the calibration file only for int8, and always the first
   * CUDA device.
   */
  function ExportArguments(model: string, precision: string, calibration: Option<Path>): (r: ExportRequest)
    ensures r.modelName == model && r.precision == AsciiLower(precision) && r.device == "cuda:0"
    ensures r.calibration.Some? ==> r.precision == "int8"
    ensures r.precision == "int8" ==> r.calibration == calibration
  {
    var p := AsciiLower(precision);
    ExportRequest(model, p, "cuda:0", if p == "int8" then calibration else None)
  }

  /**
   * An engine card: whether its status label shows the engine as built,
   * whether its button reads "Rebuild" (else "Build"), and its button's tooltip.
   */
  datatype Card = Card(built: bool, rebuild: bool, hint: Hint)

  function ButtonText(c: Card): (text: string)
    ensures !Contains(text, "INT8")
  {
    BuildLabelOmitsInt8(c.rebuild);
    BuildLabel(c.rebuild)
  }

  /** A card as `_update_model_status` refreshes it for an engine that is or is not present. */
  function Refreshed(card: Card, built: bool): (c: Card)
    ensures c.built == built && c.hint == card.hint
    ensures c.rebuild == built
  {
    card.(built := built, rebuild := built)
  }

  /** The loop of `_update_tasks` that classifies each catalog identifier in turn. */
  method CollectCategories(catalog: seq<string>) returns (found: seq<Task>)
    ensures found == Categories(catalog)
  {
    found := [];
    for i := 0 to |catalog|
      invariant found == Categories(catalog[..i])
    {
      found := found + [Classify(catalog[i])];
    }
    assert catalog[..|catalog|] == catalog;
  }

  /** The loop of `_update_models` that collects the identifiers `task` keeps, in catalog order. */
  method FilterModels(task: Option<Task>, catalog: seq<string>) returns (filtered: seq<string>)
    ensures filtered == Filtered(task, catalog)
  {
    filtered := [];
    for i := 0 to |catalog|
      invariant filtered == Filtered(task, catalog[..i])
    {
      assert catalog[..i + 1][..i] == catalog[..i];
      if Keep(task, catalog[i]) {
        filtered := filtered + [catalog[i]];
      }
    }
    assert catalog[..|catalog|] == catalog;
  }

  /** The category combo over the models `ms`: their categories, showing one of them (None when empty). */
  ghost predicate TasksListedFor(ms: seq<string>, tasks: seq<Task>, task: Option<Task>) {
    tasks == TaskList(ms) && (task.None? <==> tasks == []) && (task.Some? ==> task.value in tasks)
  }

  /** The model combo over the models `ms`: those `task` keeps, showing one of them ("" when empty). */
  ghost predicate ModelsListedFor(ms: seq<string>, task: Option<Task>, models: seq<string>, model: string) {
    models == Filtered(task, ms) && (models == [] ==> model == "") && (models != [] ==> model in models)
  }

  /** The two combos read only their own fields and the catalog. */
  twostate lemma ListingsKept(w: ModelManagerWindow)
    requires old(w.version) == w.version && old(w.tasks) == w.tasks && old(w.task) == w.task
    requires old(w.models) == w.models && old(w.model) == w.model
    ensures old(w.TasksListed()) == w.TasksListed() && old(w.ModelsListed()) == w.ModelsListed()
  {
  }

  class ModelManagerWindow {
    const modelData: map<string, seq<string>>
    const versions: seq<string>
    const manager: ModelManager

    // The combos' current texts and items (None and "" stand for an empty combo).
    var version: string
    var tasks: seq<Task>
    var task: Option<Task>
    var models: seq<string>
    var model: string
    var calibration: Option<Path>

    /** The enabled flags of the ten controls `_set_ui_enabled` switches. */
    var enabled: Controls

    // The status label (None while it is empty), whether the Download button reads "Re-download Model",
    // and the three engine cards.
    var downloadStatus: Option<bool>
    var redownload: bool
    var fp32Card: Card
    var fp16Card: Card
    var int8Card: Card


    // The build log and whether the progress bar is shown (indeterminate).
    var log: seq<string>
    var progressBusy: bool

    function Models(): seq<string>
      reads this`version
    {
      CatalogModels(modelData, version)
    }

    function ButtonsView(): Buttons
      reads this`enabled
    {
      Buttons(enabled.download, enabled.fp32, enabled.fp16, enabled.int8)
    }

    /** The calibration label's text: the chosen file's name in italics, or "None selected". */
    function CalibrationLabel(): (text: string)
      reads this`calibration
      ensures calibration.None? ==> text == "<i>None selected</i>"
      ensures calibration.Some? ==> text == "<i>" + Name(calibration.value) + "</i>"
    {
      match calibration
      case Some(path) => "<i>" + Name(path) + "</i>"
      case None => "<i>None selected</i>"
    }

    /** The calibration label's tooltip: the chosen file's full path, or the default explanation. */
    function CalibrationToolTip(): (text: string)
      reads this`calibration
      ensures calibration.None? ==> text == "Calibration dataset YAML used for INT8 quantization."
      ensures calibration.Some? ==> text == Str(calibration.value)
    {
      match calibration
      case Some(path) => Str(path)
      case None => "Calibration dataset YAML used for INT8 quantization."
    }

    /** The category combo lists the categories of the current version, and shows one of them. */
    ghost predicate TasksListed()
      reads this`version, this`tasks, this`task
    {
      TasksListedFor(CatalogModels(modelData, version), tasks, task)
    }

    /** The model combo lists the current version's models that pass the current task's filter. */
    ghost predicate ModelsListed()
      reads this`version, this`task, this`models, this`model
    {
      ModelsListedFor(CatalogModels(modelData, version), task, models, model)
    }

    /** The calibration hint is never shown. */
    ghost predicate LabelsValid()
      reads this`int8Card
    {
      int8Card.hint != NeedsCalibration
    }

    ghost predicate Valid()
      reads this`version, this`tasks, this`task, this`models, this`model, this`int8Card
    {
      TasksListed() && ModelsListed() && LabelsValid()
    }

    /** What `_update_model_status` leaves on screen for the probes `env`. */
    ghost predicate Shows(env: Probes)
      reads this`model, this`enabled, this`calibration, this`downloadStatus, this`redownload
      reads this`fp32Card, this`fp16Card, this`int8Card
    {
      var downloaded := env.downloaded(model);
      ButtonsView() == Policy(model != "", downloaded, env.gpu, env.tensorrt, calibration.Some?) &&
      (model == "" ==> downloadStatus == None && !fp32Card.built && !fp16Card.built && !int8Card.built) &&
      (model != "" ==>
        downloadStatus == Some(downloaded) && redownload == downloaded &&
        fp32Card.built == env.built(model, "fp32") && fp32Card.rebuild == fp32Card.built &&
        fp16Card.built == env.built(model, "fp16") && fp16Card.rebuild == fp16Card.built &&
        int8Card.built == env.built(model, "int8") && int8Card.rebuild == int8Card.built)
    }

    /** The tooltips that explain a disabled Build button. */
    ghost predicate Explains(env: Probes)
      reads this`model, this`fp32Card, this`fp16Card, this`int8Card
    {
      model != "" ==>
        (!(env.gpu && env.tensorrt) ==> fp32Card.hint == NeedsGpu && fp16Card.hint == NeedsGpu && int8Card.hint == NeedsGpu) &&
        (env.gpu && env.tensorrt && !env.downloaded(model) ==>
          fp32Card.hint == NeedsDownload && fp16Card.hint == NeedsDownload && int8Card.hint == NeedsDownload)
    }

    /**
     * `__init__` up to `_setup_connections`: the widgets are built, the version
     * combo lists the catalog's versions in order and shows the first, every
     * control is enabled and no calibration file is chosen. `OpenWindow` runs
     * the cascade that `__init__` ends with.
     */
    constructor (modelData: map<string, seq<string>>, versions: seq<string>, weightsDir: Path)
      requires forall v :: v in versions <==> v in modelData
      ensures this.modelData == modelData && this.versions == versions && manager.weightsDir == weightsDir
      ensures version == (if versions == [] then "" else versions[0]) && calibration == None
      ensures enabled == AllControls(true) && LabelsValid()
      ensures log == [] && !progressBusy
    {
      this.modelData := modelData;
      this.versions := versions;
      manager := new ModelManager(weightsDir);
      version := if versions == [] then "" else versions[0];
      tasks := [];
      task := None;
      models := [];
      model := "";
      calibration := None;
      enabled := AllControls(true);
      downloadStatus := None;
      redownload := false;
      fp32Card := Card(false, false, NoHint);
      fp16Card := Card(false, false, NoHint);
      int8Card := Card(false, false, NoHint);
      log := [];
      progressBusy := false;
    }

    /** The no-model branch of `_update_model_status`: everything disabled, no engine shown as built. */
    method ClearStatus()
      modifies this`downloadStatus, this`fp32Card, this`fp16Card, this`int8Card, this`enabled
      ensures downloadStatus == None
      ensures fp32Card == old(fp32Card).(built := false) && fp16Card == old(fp16Card).(built := false)
      ensures int8Card == old(int8Card).(built := false)
      ensures enabled == old(enabled).(download := false, fp32 := false, fp16 := false, int8 := false)
    {
      downloadStatus := None;
      fp32Card := fp32Card.(built := false);
      fp16Card := fp16Card.(built := false);
      int8Card := int8Card.(built := false);
      enabled := enabled.(download := false, fp32 := false, fp16 := false, int8 := false);
    }

    /**
     * The tooltips of `_update_model_status`: the GPU hint first, then the
     * download hint. The third branch tests the INT8 button's text for
     * "INT8", which it never holds, so the calibration hint is never set.
     */
    method ExplainCards(gpuOk: bool, downloaded: bool)
      requires int8Card.hint != NeedsCalibration
      modifies this`fp32Card, this`fp16Card, this`int8Card
      ensures int8Card.hint != NeedsCalibration
      ensures fp32Card.built == old(fp32Card.built) && fp32Card.rebuild == old(fp32Card.rebuild)
      ensures fp16Card.built == old(fp16Card.built) && fp16Card.rebuild == old(fp16Card.rebuild)
      ensures int8Card.built == old(int8Card.built) && int8Card.rebuild == old(int8Card.rebuild)
      ensures !gpuOk ==> fp32Card.hint == NeedsGpu && fp16Card.hint == NeedsGpu && int8Card.hint == NeedsGpu
      ensures gpuOk && !downloaded ==>
        fp32Card.hint == NeedsDownload && fp16Card.hint == NeedsDownload && int8Card.hint == NeedsDownload
      ensures gpuOk && downloaded ==> fp32Card == old(fp32Card) && fp16Card == old(fp16Card) && int8Card == old(int8Card)
    {
      var fp32, fp16, int8 := fp32Card, fp16Card, int8Card;
      if !gpuOk {
        fp32, fp16, int8 := fp32.(hint := NeedsGpu), fp16.(hint := NeedsGpu), int8.(hint := NeedsGpu);
      } else if !downloaded {
        fp32, fp16, int8 := fp32.(hint := NeedsDownload), fp16.(hint := NeedsDownload), int8.(hint := NeedsDownload);
      } else if Contains(ButtonText(int8), "INT8") && calibration.None? {
        int8 := int8.(hint := NeedsCalibration);
      }
      fp32Card, fp16Card, int8Card := fp32, fp16, int8;
    }

    /**
     * `_update_model_status`: with no model every button is disabled and
     * every engine shows "not built"; otherwise the labels follow what the
     * probes report and the buttons follow `Policy`, and the tooltips explain
     * a disabled Build button.
     */
    method UpdateModelStatus(env: Probes)
      requires LabelsValid()
      modifies this`downloadStatus, this`redownload, this`fp32Card, this`fp16Card, this`int8Card, this`enabled
      ensures LabelsValid() && Shows(env) && Explains(env)
      ensures enabled == old(enabled).(download := enabled.download, fp32 := enabled.fp32,
                                       fp16 := enabled.fp16, int8 := enabled.int8)
      ensures model == "" ==>
        redownload == old(redownload) && fp32Card == old(fp32Card).(built := false) &&
        fp16Card == old(fp16Card).(built := false) && int8Card == old(int8Card).(built := false)
      ensures model != "" && env.gpu && env.tensorrt && env.downloaded(model) ==>
        fp32Card.hint == old(fp32Card.hint) && fp16Card.hint == old(fp16Card.hint) && int8Card.hint == old(int8Card.hint)
    {
      if model == "" {
        ClearStatus();
        return;
      }
      var downloaded := env.downloaded(model);
      var canBuild := downloaded && env.gpu && env.tensorrt;
      downloadStatus := Some(downloaded);
      redownload := downloaded;
      // The fp32 and fp16 cards, as the loop over the two (precision, label, button) triples does,
      // then the int8 card, whose button also needs a calibration file.
      fp32Card := Refreshed(fp32Card, env.built(model, "fp32"));
      fp16Card := Refreshed(fp16Card, env.built(model, "fp16"));
      int8Card := Refreshed(int8Card, env.built(model, "int8"));
      enabled := enabled.(download := true, fp32 := canBuild, fp16 := canBuild, int8 := canBuild && calibration.Some?);
      ExplainCards(env.gpu && env.tensorrt, downloaded);
    }

    /**
     * `_update_models`: the model combo is refilled with the catalog models
     * that pass the current task's filter, in catalog order; it then shows
     * the first one and the status is refreshed.
     */
    method UpdateModels(env: Probes)
      requires TasksListed() && LabelsValid()
      modifies this`models, this`model, this`downloadStatus, this`redownload, this`fp32Card, this`fp16Card, this`int8Card, this`enabled
      ensures Valid() && Shows(env) && Explains(env)
      ensures models == Filtered(task, Models()) && model == (if models == [] then "" else models[0])
      ensures enabled == old(enabled).(download := enabled.download, fp32 := enabled.fp32,
                                       fp16 := enabled.fp16, int8 := enabled.int8)
    {
      var filtered := FilterModels(task, Models());
      models := filtered;
      model := if filtered == [] then "" else filtered[0];
      assert ModelsListed();
      label Listed:
      UpdateModelStatus(env);
      ListingsKept@Listed(this);
    }

    /**
     * `_update_tasks`: the categories of the current version's models,
     * deduplicated and in the fixed order, become the category combo's items; it
     * shows the first one and the model list follows.
     */
    method UpdateTasks(env: Probes)
      requires LabelsValid()
      modifies this`tasks, this`task, this`models, this`model, this`downloadStatus, this`redownload, this`fp32Card, this`fp16Card, this`int8Card, this`enabled
      ensures Valid() && Shows(env) && Explains(env)
      ensures tasks == TaskList(Models()) && task == (if tasks == [] then None else Some(tasks[0]))
      ensures models == Filtered(task, Models()) && model == (if models == [] then "" else models[0])
      ensures enabled == old(enabled).(download := enabled.download, fp32 := enabled.fp32,
                                       fp16 := enabled.fp16, int8 := enabled.int8)
    {
      var found := CollectCategories(Models());
      tasks := SortedDistinct(found);
      task := if tasks == [] then None else Some(tasks[0]);
      UpdateModels(env);
    }

    /** A new current version (the version combo's change signal). */
    method SelectVersion(v: string, env: Probes)
      requires LabelsValid() && v in versions
      modifies this`version, this`tasks, this`task, this`models, this`model, this`downloadStatus, this`redownload, this`fp32Card, this`fp16Card, this`int8Card, this`enabled
      ensures version == v && Valid() && Shows(env) && Explains(env)
      ensures tasks == TaskList(CatalogModels(modelData, v)) && task == (if tasks == [] then None else Some(tasks[0]))
      ensures models == Filtered(task, Models()) && model == (if models == [] then "" else models[0])
      ensures enabled == old(enabled).(download := enabled.download, fp32 := enabled.fp32,
                                       fp16 := enabled.fp16, int8 := enabled.int8)
    {
      version := v;
      UpdateTasks(env);
    }

    /** A new current task (the category combo's change signal). */
    method SelectTask(t: Task, env: Probes)
      requires Valid() && t in tasks
      modifies this`task, this`models, this`model, this`downloadStatus, this`redownload, this`fp32Card, this`fp16Card, this`int8Card, this`enabled
      ensures task == Some(t) && Valid() && Shows(env) && Explains(env)
      ensures models == Filtered(Some(t), Models()) && model == (if models == [] then "" else models[0])
      ensures enabled == old(enabled).(download := enabled.download, fp32 := enabled.fp32,
                                       fp16 := enabled.fp16, int8 := enabled.int8)
    {
      task := Some(t);
      UpdateModels(env);
    }

    /** A new current model (the model combo's change signal). */
    method SelectModel(m: string, env: Probes)
      requires Valid() && m in models
      modifies this`model, this`downloadStatus, this`redownload, this`fp32Card, this`fp16Card, this`int8Card, this`enabled
      ensures model == m && Valid() && Shows(env) && Explains(env)
      ensures enabled == old(enabled).(download := enabled.download, fp32 := enabled.fp32,
                                       fp16 := enabled.fp16, int8 := enabled.int8)
    {
      model := m;
      assert ModelsListed();
      label Chosen:
      UpdateModelStatus(env);
      ListingsKept@Chosen(this);
    }

    /** `_set_ui_enabled`: all ten controls take the same enabled state, and nothing else changes. */
    method SetUiEnabled(on: bool)
      modifies this`enabled
      ensures enabled == AllControls(on)
    {
      enabled := AllControls(on);
    }

    /** Clears the log, shows the running progress bar and disables every control. */
    method StartTask(firstLine: string)
      modifies this`log, this`progressBusy, this`enabled
      ensures log == [firstLine] && progressBusy && enabled == AllControls(false)
    {
      log := [];
      progressBusy := true;
      SetUiEnabled(false);
      log := log + [firstLine];
    }

    /**
     * `_download_model`: with a model shown, a job starts with the download
     * line and a download worker for that model is made; with none nothing
     * changes.
     */
    method DownloadModel() returns (worker: Workers.ModelDownloadWorker?)
      modifies this`log, this`progressBusy, this`enabled
      ensures model == "" ==> worker == null && unchanged(this)
      ensures model != "" ==>
        worker != null && fresh(worker) && worker.modelName == model &&
        log == ["Starting model download for " + model + "..."] && progressBusy && enabled == AllControls(false)
    {
      if model == "" {
        return null;
      }
      StartTask("Starting model download for " + model + "...");
      worker := new Workers.ModelDownloadWorker(model);
    }

    /**
     * `_build_engine`: like `DownloadModel`, but the worker made is an export
     * worker with the arguments `ExportArguments` selects.
     */
    method BuildEngine(precision: string) returns (worker: ExportWorker.EngineExportWorker?)
      modifies this`log, this`progressBusy, this`enabled
      ensures model == "" ==> worker == null && unchanged(this)
      ensures model != "" ==>
        worker != null && fresh(worker) &&
        ExportRequest(worker.modelName, worker.precision, worker.device, worker.calibrationYamlPath) ==
          ExportArguments(model, precision, calibration) &&
        log == ["Starting engine build for " + model + " with precision " + precision + "..."] &&
        progressBusy && enabled == AllControls(false)
    {
      if model == "" {
        return null;
      }
      StartTask("Starting engine build for " + model + " with precision " + precision + "...");
      var request := ExportArguments(model, precision, calibration);
      worker := new ExportWorker.EngineExportWorker(request.modelName, request.precision, request.device,
                                                    request.calibration);
    }

    /** `_append_log`: a line of worker output is appended to the log, and nothing else changes. */
    method AppendLog(text: string)
      modifies this`log
      ensures log == old(log) + [text]
    {
      log := log + [text];
    }

    /**
     * `_common_task_cleanup`: the progress bar stops, every control is
     * enabled again and the log gets the closing line and the outcome.
     */
    method CommonTaskCleanup(success: bool, message: string)
      modifies this`log, this`progressBusy, this`enabled
      ensures !progressBusy && enabled == AllControls(true)
      ensures log == old(log) + [TaskFinished, Outcome(success, message)]
    {
      progressBusy := false;
      SetUiEnabled(true);
      log := log + [TaskFinished];
      if success {
        log := log + ["\U{2705} " + message];
      } else {
        log := log + ["\U{274C} " + message];
      }
    }

    /**
     * `_on_download_complete` and `_on_engine_built`: after the cleanup the
     * policy runs again, so the four buttons end as the policy says rather
     * than all enabled, and the other six controls stay enabled.
     */
    method OnTaskDone(success: bool, message: string, env: Probes)
      requires Valid()
      modifies this`log, this`progressBusy, this`downloadStatus, this`redownload, this`fp32Card, this`fp16Card, this`int8Card, this`enabled
      ensures Valid() && Shows(env) && Explains(env) && !progressBusy
      ensures enabled.version && enabled.task && enabled.model
      ensures enabled.calibrationPicker && enabled.openModels && enabled.clearLog
      ensures log == old(log) + [TaskFinished, Outcome(success, message)]
    {
      CommonTaskCleanup(success, message);
      UpdateModelStatus(env);
      ListingsKept(this);
    }

    /**
     * `_select_calibration_data` once the file dialog has answered: a chosen
     * file becomes the calibration path (shown through `CalibrationLabel` and
     * `CalibrationToolTip`); an empty answer (the dialog was cancelled)
     * clears it. The status refresh runs again either way.
     */
    method SelectCalibrationData(file: string, env: Probes)
      requires Valid()
      modifies this`calibration, this`downloadStatus, this`redownload, this`fp32Card, this`fp16Card, this`int8Card, this`enabled
      ensures calibration == (if file == "" then None else Some(Parse(file)))
      ensures Valid() && Shows(env) && Explains(env)
      ensures enabled == old(enabled).(download := enabled.download, fp32 := enabled.fp32,
                                       fp16 := enabled.fp16, int8 := enabled.int8)
      ensures model == "" ==>
        redownload == old(redownload) && fp32Card == old(fp32Card).(built := false) &&
        fp16Card == old(fp16Card).(built := false) && int8Card == old(int8Card).(built := false)
      ensures model != "" && env.gpu && env.tensorrt && env.downloaded(model) ==>
        fp32Card.hint == old(fp32Card.hint) && fp16Card.hint == old(fp16Card.hint) && int8Card.hint == old(int8Card.hint)
      // When the window already showed `env`, only the calibration and the INT8 button change.
      ensures old(Shows(env)) && old(Explains(env)) ==>
        downloadStatus == old(downloadStatus) && redownload == old(redownload) &&
        fp32Card == old(fp32Card) && fp16Card == old(fp16Card) && int8Card == old(int8Card) &&
        enabled == old(enabled).(int8 := enabled.int8)
    {
      calibration := if file == "" then None else Some(Parse(file));
      UpdateModelStatus(env);
      ListingsKept(this);
      CalibrationOnlyAffectsInt8(model != "", env.downloaded(model), env.gpu, env.tensorrt,
                                 old(calibration).Some?, calibration.Some?);
    }
  }

  /**
   * `__init__` as a whole: the window is built, then `_update_tasks` runs once,
   * so both combos are consistent with the first version and the buttons and
   * tooltips follow the policy for the probes `env`.
   */
  method OpenWindow(modelData: map<string, seq<string>>, versions: seq<string>, weightsDir: Path, env: Probes)
    returns (w: ModelManagerWindow)
    requires forall v :: v in versions <==> v in modelData
    ensures fresh(w) && w.modelData == modelData && w.versions == versions && w.manager.weightsDir == weightsDir
    ensures w.version == (if versions == [] then "" else versions[0]) && w.calibration == None
    ensures w.Valid() && w.Shows(env) && w.Explains(env)
    ensures w.enabled.version && w.enabled.task && w.enabled.model
    ensures w.enabled.calibrationPicker && w.enabled.openModels && w.enabled.clearLog
    ensures w.log == [] && !w.progressBusy
  {
    w := new ModelManagerWindow(modelData, versions, weightsDir);
    w.UpdateTasks(env);
  }
}
