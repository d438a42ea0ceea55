/**
 * `EngineExportWorker` of `model_manager/core/worker_threads.py`: the checks
 * before the export, the `yolo export` command line, the calibration YAML
 * whose paths are made absolute, the decision on the exit code and the
 * rename of the engine file, and the removal of the temporary YAML.
 *
 * The worker's environment is an `ExportWorld`: the `weights_dir` setting,
 * the working directory `resolve()` anchors at, the name the temporary file
 * gets, what loading the calibration YAML gives, how the subprocess ends
 * and whether the rename fails. The filesystem is the set of paths present.
 */
module ExportWorker {
  import opened Wrappers
  import opened Text
  import opened PurePath
  import opened Manager
  import opened Workers

  // ----- Faults -----

  /**
   * Which handler of `run` catches an exception: `Expected` for the
   * `ValueError`, `FileNotFoundError`, `SyntaxError` clause, `Unexpected`
   * for the generic `Exception` clause.
   */
  datatype FaultKind = Expected | Unexpected

  /** A raised exception: its handler and `str(e)`. */
  datatype Fault = Fault(kind: FaultKind, message: string)

  /** What a handler emits: one `output` line and the failing `done`. */
  function Failure(f: Fault, modelName: string, precision: string): (r: seq<Signal>)
    ensures |r| == 2 && r[0].Output? && r[1] == Done(false, modelName, precision, f.message)
  {
    var prefix := if f.kind == Expected then "Error: " else "An unexpected error occurred: ";
    [Output(prefix + f.message), Done(false, modelName, precision, f.message)]
  }

  // ----- The calibration YAML -----

  /** A value of the loaded YAML mapping: a string, or something else named by its Python type. */
  datatype YamlValue = StrValue(s: string) | OtherValue(typeName: string)

  /**
   * What `yaml.safe_load` of the calibration file gives: a mapping, a scalar
   * document that is not a container (`None`, a number, a boolean), or an
   * exception raised while opening or parsing the file.
   */
  datatype CalibrationLoad =
    | Mapping(entries: map<string, YamlValue>)
    | NotMapping(typeName: string)
    | LoadFault(fault: Fault)

  /** The result of rewriting the calibration data. */
  datatype Rebasing = Rebased(data: map<string, YamlValue>) | RebaseFault(fault: Fault)

  /** `str((yaml_dir / s).resolve())`. */
  function Anchored(yamlDir: Path, s: string, cwd: Path): string {
    Str(Resolve(Join(yamlDir, s), cwd))
  }

  /** `data["path"]` is always re-anchored at the YAML's directory. */
  function AnchorPath(data: map<string, YamlValue>, yamlDir: Path, cwd: Path): Rebasing {
    if "path" !in data then Rebased(data)
    else match data["path"]
      case StrValue(s) => Rebased(data["path" := StrValue(Anchored(yamlDir, s, cwd))])
      case OtherValue(ty) =>
        RebaseFault(Fault(Unexpected, "unsupported operand type(s) for /: 'PosixPath' and '" + ty + "'"))
  }

  /** `data["train"]` and `data["val"]` are re-anchored only when they are relative. */
  function AnchorRelative(data: map<string, YamlValue>, key: string, yamlDir: Path, cwd: Path): Rebasing {
    if key !in data then Rebased(data)
    else match data[key]
      case StrValue(s) =>
        if IsAbs(s) then Rebased(data) else Rebased(data[key := StrValue(Anchored(yamlDir, s, cwd))])
      case OtherValue(ty) =>
        RebaseFault(Fault(Unexpected, "expected str, bytes or os.PathLike object, not " + ty))
  }

  /** The three rewrites, in the order `path`, `train`, `val`; the first failing one ends it. */
  function Rebase(data: map<string, YamlValue>, yamlDir: Path, cwd: Path): Rebasing {
    match AnchorPath(data, yamlDir, cwd)
    case RebaseFault(f) => RebaseFault(f)
    case Rebased(d1) =>
      match AnchorRelative(d1, "train", yamlDir, cwd)
      case RebaseFault(f) => RebaseFault(f)
      case Rebased(d2) => AnchorRelative(d2, "val", yamlDir, cwd)
  }

  /** Loading the calibration file and rewriting what it holds. */
  function LoadCalibration(load: CalibrationLoad, yamlDir: Path, cwd: Path): Rebasing {
    match load
    case LoadFault(f) => RebaseFault(f)
    case NotMapping(ty) => RebaseFault(Fault(Unexpected, "argument of type '" + ty + "' is not iterable"))
    case Mapping(data) => Rebase(data, yamlDir, cwd)
  }

  /**
   * The in-place rewrite of the loaded mapping, key by key.
   */
  method RebaseCalibration(data: map<string, YamlValue>, yamlDir: Path, cwd: Path) returns (r: Rebasing)
    ensures r == Rebase(data, yamlDir, cwd)
  {
    var d := data;
    if "path" in d {
      match d["path"]
      case OtherValue(ty) =>
        return RebaseFault(Fault(Unexpected, "unsupported operand type(s) for /: 'PosixPath' and '" + ty + "'"));
      case StrValue(s) =>
        d := d["path" := StrValue(Anchored(yamlDir, s, cwd))];
    }
    if "train" in d {
      match d["train"]
      case OtherValue(ty) =>
        return RebaseFault(Fault(Unexpected, "expected str, bytes or os.PathLike object, not " + ty));
      case StrValue(s) =>
        if !IsAbs(s) {
          d := d["train" := StrValue(Anchored(yamlDir, s, cwd))];
        }
    }
    if "val" in d {
      match d["val"]
      case OtherValue(ty) =>
        return RebaseFault(Fault(Unexpected, "expected str, bytes or os.PathLike object, not " + ty));
      case StrValue(s) =>
        if !IsAbs(s) {
          d := d["val" := StrValue(Anchored(yamlDir, s, cwd))];
        }
    }
    r := Rebased(d);
  }

  // ----- What the rewrite guarantees -----

  /** The three keys the rewrite touches are distinct, so one rewrite never disturbs the others. */
  lemma KeysDistinct()
    ensures "path" != "train" && "path" != "val" && "train" != "val"
  {
    assert "path"[0] == 'p' && "train"[0] == 't' && "val"[0] == 'v';
  }

  /** What the `path` rewrite does on its own. */
  lemma AnchorPathStep(data: map<string, YamlValue>, yamlDir: Path, cwd: Path)
    ensures AnchorPath(data, yamlDir, cwd).Rebased? <==> !("path" in data && data["path"].OtherValue?)
    ensures AnchorPath(data, yamlDir, cwd).Rebased? ==>
      var d := AnchorPath(data, yamlDir, cwd).data;
      d.Keys == data.Keys && (forall k :: k in data && k != "path" ==> d[k] == data[k]) &&
      ("path" in data ==> d["path"] == StrValue(Anchored(yamlDir, data["path"].s, cwd)))
  {
  }

  /** What the `train` or `val` rewrite does on its own. */
  lemma AnchorRelativeStep(data: map<string, YamlValue>, key: string, yamlDir: Path, cwd: Path)
    ensures AnchorRelative(data, key, yamlDir, cwd).Rebased? <==> !(key in data && data[key].OtherValue?)
    ensures AnchorRelative(data, key, yamlDir, cwd).Rebased? ==>
      var d := AnchorRelative(data, key, yamlDir, cwd).data;
      d.Keys == data.Keys && (forall k :: k in data && k != key ==> d[k] == data[k]) &&
      (key in data ==> d[key] == if IsAbs(data[key].s) then data[key] else StrValue(Anchored(yamlDir, data[key].s, cwd)))
  {
  }

  /** The rewrite fails exactly when one of the three keys holds something other than a string. */
  lemma RebaseFaultIff(data: map<string, YamlValue>, yamlDir: Path, cwd: Path)
    ensures Rebase(data, yamlDir, cwd).RebaseFault? <==>
      ("path" in data && data["path"].OtherValue?) ||
      ("train" in data && data["train"].OtherValue?) ||
      ("val" in data && data["val"].OtherValue?)
  {
    KeysDistinct();
    AnchorPathStep(data, yamlDir, cwd);
    var r1 := AnchorPath(data, yamlDir, cwd);
    if r1.Rebased? {
      AnchorRelativeStep(r1.data, "train", yamlDir, cwd);
      var r2 := AnchorRelative(r1.data, "train", yamlDir, cwd);
      if r2.Rebased? {
        AnchorRelativeStep(r2.data, "val", yamlDir, cwd);
      }
    }
  }

  /** A successful rewrite keeps the set of keys and copies every other key unchanged. */
  lemma RebaseKeepsOthers(data: map<string, YamlValue>, yamlDir: Path, cwd: Path)
    requires Rebase(data, yamlDir, cwd).Rebased?
    ensures Rebase(data, yamlDir, cwd).data.Keys == data.Keys
    ensures forall k :: k in data && k != "path" && k != "train" && k != "val" ==>
      Rebase(data, yamlDir, cwd).data[k] == data[k]
  {
    AnchorPathStep(data, yamlDir, cwd);
    var d1 := AnchorPath(data, yamlDir, cwd).data;
    AnchorRelativeStep(d1, "train", yamlDir, cwd);
    var d2 := AnchorRelative(d1, "train", yamlDir, cwd).data;
    AnchorRelativeStep(d2, "val", yamlDir, cwd);
  }

  /**
   * After a successful rewrite, `path` is anchored at the YAML's directory
   * whatever it was, and `train` and `val` are anchored when they were
   * relative and kept when they were absolute.
   */
  lemma RebaseValues(data: map<string, YamlValue>, yamlDir: Path, cwd: Path)
    requires Rebase(data, yamlDir, cwd).Rebased?
    ensures var r := Rebase(data, yamlDir, cwd).data;
      ("path" in data ==> data["path"].StrValue? && r["path"] == StrValue(Anchored(yamlDir, data["path"].s, cwd))) &&
      ("train" in data ==> (data["train"].StrValue? &&
        r["train"] == if IsAbs(data["train"].s) then data["train"] else StrValue(Anchored(yamlDir, data["train"].s, cwd)))) &&
      ("val" in data ==> (data["val"].StrValue? &&
        r["val"] == if IsAbs(data["val"].s) then data["val"] else StrValue(Anchored(yamlDir, data["val"].s, cwd))))
  {
    KeysDistinct();
    AnchorPathStep(data, yamlDir, cwd);
    var d1 := AnchorPath(data, yamlDir, cwd).data;
    AnchorRelativeStep(d1, "train", yamlDir, cwd);
    var d2 := AnchorRelative(d1, "train", yamlDir, cwd).data;
    AnchorRelativeStep(d2, "val", yamlDir, cwd);
  }

  /** An anchored path is absolute, and anchoring it again changes nothing. */
  lemma AnchoredFixed(yamlDir: Path, s: string, cwd: Path)
    requires Normal(yamlDir) && Normal(cwd)
    ensures IsAbs(Anchored(yamlDir, s, cwd))
    ensures Anchored(yamlDir, Anchored(yamlDir, s, cwd), cwd) == Anchored(yamlDir, s, cwd)
  {
    var r := Resolve(Join(yamlDir, s), cwd);
    assert Str(r) == "/" + JoinParts(r.parts);
    assert IsAbs(Str(r));
    ParseStr(r);
    assert Join(yamlDir, Str(r)) == r;
    CollapseNoDots(r.parts);
  }

  /** An anchored path is absolute. */
  lemma AnchoredAbsolute(yamlDir: Path, s: string, cwd: Path)
    ensures IsAbs(Anchored(yamlDir, s, cwd))
  {
    var r := Resolve(Join(yamlDir, s), cwd);
    assert Str(r) == "/" + JoinParts(r.parts);
  }

  /** After a successful rewrite `path`, `train` and `val`, where present, are absolute paths. */
  lemma RebasedAbsolute(data: map<string, YamlValue>, yamlDir: Path, cwd: Path)
    requires Rebase(data, yamlDir, cwd).Rebased?
    ensures var r := Rebase(data, yamlDir, cwd).data;
      ("path" in r ==> r["path"].StrValue? && IsAbs(r["path"].s)) &&
      ("train" in r ==> r["train"].StrValue? && IsAbs(r["train"].s)) &&
      ("val" in r ==> r["val"].StrValue? && IsAbs(r["val"].s))
  {
    RebaseValues(data, yamlDir, cwd);
    RebaseKeepsOthers(data, yamlDir, cwd);
    if "path" in data {
      AnchoredAbsolute(yamlDir, data["path"].s, cwd);
    }
    if "train" in data {
      AnchoredAbsolute(yamlDir, data["train"].s, cwd);
    }
    if "val" in data {
      AnchoredAbsolute(yamlDir, data["val"].s, cwd);
    }
  }

  /** A mapping whose `path` is already anchored is left alone by the first rewrite. */
  lemma AnchorPathFixed(data: map<string, YamlValue>, yamlDir: Path, cwd: Path)
    requires "path" in data ==> data["path"].StrValue? && Anchored(yamlDir, data["path"].s, cwd) == data["path"].s
    ensures AnchorPath(data, yamlDir, cwd) == Rebased(data)
  {
    if "path" in data {
      assert data["path" := StrValue(Anchored(yamlDir, data["path"].s, cwd))] == data;
    }
  }

  /** Rewriting an already rewritten mapping gives it back unchanged. */
  lemma RebaseIdempotent(data: map<string, YamlValue>, yamlDir: Path, cwd: Path)
    requires Normal(yamlDir) && Normal(cwd)
    requires Rebase(data, yamlDir, cwd).Rebased?
    ensures Rebase(Rebase(data, yamlDir, cwd).data, yamlDir, cwd) == Rebase(data, yamlDir, cwd)
  {
    var r := Rebase(data, yamlDir, cwd).data;
    RebaseValues(data, yamlDir, cwd);
    RebasedAbsolute(data, yamlDir, cwd);
    if "path" in data {
      AnchoredFixed(yamlDir, data["path"].s, cwd);
    }
    AnchorPathFixed(r, yamlDir, cwd);
  }

  // ----- The export -----

  /**
   * How the `yolo` subprocess goes: it cannot be started; or it prints its
   * lines and exits; or reading its output raises after `lines` were read
   * (a line that cannot be decoded raises a `ValueError`), and the process,
   * which leaving the `with` block waits for, may have written the engine.
   */
  datatype ProcessRun =
    | LaunchFault(fault: Fault)
    | Exited(lines: seq<string>, exitCode: int, producedEngine: bool)
    | ReadFault(lines: seq<string>, fault: Fault, producedEngine: bool)

  /**
   * The environment of one run: the `weights_dir` setting, the directory
   * `resolve()` anchors relative paths at, the name `NamedTemporaryFile`
   * picks, the calibration file as loaded, the subprocess, and the
   * exception `os.rename` raises, if any.
   */
  datatype ExportWorld = ExportWorld(
    weightsDir: string, cwd: Path, tempFile: Path,
    calibration: CalibrationLoad, process: ProcessRun, renameFault: Option<Fault>)

  /**
   * What one run leaves behind: the signals emitted, the paths present, the
   * command handed to `Popen` (if it got that far) and the rewritten data
   * dumped into the temporary file (if one was written).
   */
  datatype ExportTrace = ExportTrace(
    log: seq<Signal>, files: set<Path>, command: Option<seq<string>>, tempData: Option<map<string, YamlValue>>)

  /**
   * `model_path.parent / f"{model_path.stem}.engine"`: the file `yolo export`
   * writes, next to the weights. For a model path in normal form that is
   * the parent with one more part (`GenericEngineIsJoin`).
   */
  function GenericEngine(modelPath: Path): (g: Path)
    ensures g.parts != [] && Name(g) == Stem(Name(modelPath)) + ".engine"
  {
    Path(modelPath.absolute, Parent(modelPath).parts + [Stem(Name(modelPath)) + ".engine"])
  }

  /** The precision-tagged name the generic engine file is renamed to. */
  function RenamedEngine(generic: Path, precision: string): Path
    requires generic.parts != []
  {
    WithName(generic, Stem(Name(generic)) + "-" + precision + ".engine")
  }

  /** The command line without the precision flags. */
  function BaseCommand(modelPath: Path, device: string): seq<string> {
    ["yolo", "export", "model=" + Str(modelPath), "format=engine", "device=" + device]
  }

  /**
   * The full command line: `half` for fp16, `int8` and the rewritten
   * calibration file for int8, nothing more for any other precision.
   */
  function ExportCommand(modelPath: Path, device: string, precision: string, tempFile: Path): (cmd: seq<string>)
    ensures |cmd| >= 5 && cmd[..5] == BaseCommand(modelPath, device)
    ensures precision == "fp16" ==> cmd[5..] == ["half"]
    ensures precision == "int8" ==> cmd[5..] == ["int8", "data=" + Str(tempFile)]
    ensures precision != "fp16" && precision != "int8" ==> cmd == BaseCommand(modelPath, device)
  {
    var base := BaseCommand(modelPath, device);
    if precision == "fp16" then base + ["half"]
    else if precision == "int8" then base + ["int8", "data=" + Str(tempFile)]
    else base
  }

  /** Each line the subprocess prints, stripped, as an `output` signal. */
  function ProgressLines(lines: seq<string>): (r: seq<Signal>)
    ensures |r| == |lines|
    ensures forall i :: 0 <= i < |lines| ==> r[i] == Output(Strip(lines[i]))
  {
    seq(|lines|, i requires 0 <= i < |lines| => Output(Strip(lines[i])))
  }

  /** The checks and preparation before `Popen`: the command, and the data of the temporary file. */
  datatype Preparation = Ready(command: seq<string>, data: Option<map<string, YamlValue>>) | Refused(fault: Fault)

  function Prepare(files: set<Path>, w: ExportWorld, modelPath: Path, precision: string, device: string,
                   calibration: Option<Path>): Preparation
  {
    if precision == "int8" then
      if calibration.None? || calibration.value !in files then
        Refused(Fault(Expected, "INT8 calibration requires a valid calibration YAML file to be selected."))
      else
        match LoadCalibration(w.calibration, Parent(calibration.value), w.cwd)
        case RebaseFault(f) => Refused(f)
        case Rebased(d) => Ready(ExportCommand(modelPath, device, precision, w.tempFile), Some(d))
    else Ready(ExportCommand(modelPath, device, precision, w.tempFile), None)
  }

  /** The signals after `Popen` was called, and the paths present when the try block ends. */
  datatype Launch = Launch(log: seq<Signal>, files: set<Path>)

  /**
   * The decision on the exit code once the output is consumed: `files` are
   * the paths present then, `generic` the engine file `yolo export` writes.
   */
  function Verdict(files: set<Path>, generic: Path, exitCode: int, renameFault: Option<Fault>,
                   modelName: string, precision: string): Launch
    requires generic.parts != []
  {
    if exitCode != 0 then
      Launch([Output("Engine build failed with exit code " + IntToString(exitCode) + "."),
              Done(false, modelName, precision, "Engine build failed.")], files)
    else if generic !in files then
      Launch([Output("Engine build failed. Engine file not found."),
              Done(false, modelName, precision, "Failed to create TensorRT engine.")], files)
    else if renameFault.Some? then
      Launch(Failure(renameFault.value, modelName, precision), files)
    else
      var renamed := RenamedEngine(generic, precision);
      Launch([Output("Engine build successful. Renamed to " + Name(renamed) + "."),
              Done(true, modelName, precision, "Engine build successful.")], files - {generic} + {renamed})
  }

  function Launched(files: set<Path>, w: ExportWorld, modelPath: Path, modelName: string, precision: string): Launch {
    match w.process
    case LaunchFault(f) => Launch(Failure(f, modelName, precision), files)
    case Exited(lines, code, produced) =>
      var g := GenericEngine(modelPath);
      var v := Verdict(if produced then files + {g} else files, g, code, w.renameFault, modelName, precision);
      Launch(ProgressLines(lines) + v.log, v.files)
    case ReadFault(lines, f, produced) =>
      var g := GenericEngine(modelPath);
      Launch(ProgressLines(lines) + Failure(f, modelName, precision), if produced then files + {g} else files)
  }

  /** The first line once the weights file is known to exist. */
  function StartLine(modelName: string, precision: string): Signal {
    Output("Starting to build TensorRT engine for " + modelName + " at " + precision + " precision...")
  }

  /**
   * The run once the command is built: the temporary file written when there
   * is calibration data, the subprocess, and the temporary file removed.
   */
  function ReadyTrace(files: set<Path>, w: ExportWorld, modelPath: Path, modelName: string, precision: string,
                      command: seq<string>, data: Option<map<string, YamlValue>>): ExportTrace
  {
    var staged := if data.Some? then files + {w.tempFile} else files;
    var l := Launched(staged, w, modelPath, modelName, precision);
    ExportTrace([StartLine(modelName, precision)] + l.log,
                if data.Some? then l.files - {w.tempFile} else l.files, Some(command), data)
  }

  /** The run once the weights file is known to exist and the preparation went as `prep` says. */
  function Proceed(files: set<Path>, w: ExportWorld, modelPath: Path, modelName: string, precision: string,
                   prep: Preparation): ExportTrace
  {
    match prep
    case Refused(f) => ExportTrace([StartLine(modelName, precision)] + Failure(f, modelName, precision), files, None, None)
    case Ready(cmd, data) => ReadyTrace(files, w, modelPath, modelName, precision, cmd, data)
  }

  /** The run once the weights file is known to exist. */
  function Started(files: set<Path>, w: ExportWorld, modelPath: Path, modelName: string, precision: string,
                   device: string, calibration: Option<Path>): ExportTrace
  {
    Proceed(files, w, modelPath, modelName, precision, Prepare(files, w, modelPath, precision, device, calibration))
  }

  /** The reference outcome of one `run` of the export worker. */
  function Export(files: set<Path>, w: ExportWorld, modelName: string, precision: string, device: string,
                  calibration: Option<Path>): ExportTrace
  {
    var mp := WeightsFile(Parse(w.weightsDir), modelName);
    if mp !in files then
      ExportTrace(Failure(Fault(Expected, "Model file not found at " + Str(mp) + ". Please download the model first."),
                          modelName, precision), files, None, None)
    else Started(files, w, mp, modelName, precision, device, calibration)
  }

  /** `<stem>.engine` is a single part, so the generic engine is the model's parent joined with it. */
  lemma GenericEngineIsJoin(modelPath: Path)
    requires Normal(modelPath)
    ensures IsPart(Stem(Name(modelPath)) + ".engine")
    ensures GenericEngine(modelPath) == Join(Parent(modelPath), Stem(Name(modelPath)) + ".engine")
  {
    var stem := Stem(Name(modelPath));
    var name := stem + ".engine";
    if modelPath.parts != [] {
      assert Name(modelPath) in modelPath.parts;
    }
    StemNoSlash(Name(modelPath));
    assert '/' !in name by {
      assert name[|stem|..] == ".engine";
      forall k | 0 <= k < |name|
        ensures name[k] != '/'
      {
        if k < |stem| {
          assert name[k] == stem[k];
        }
      }
    }
    JoinPart(Parent(modelPath), name);
  }

  /** The loop over the subprocess's output: each line is emitted stripped. */
  method EmitProgress(lines: seq<string>) returns (emitted: seq<Signal>)
    ensures emitted == ProgressLines(lines)
  {
    emitted := [];
    var i := 0;
    while i < |lines|
      invariant 0 <= i <= |lines|
      invariant emitted == ProgressLines(lines[..i])
    {
      ProgressLinesSnoc(lines, i);
      emitted := emitted + [Output(Strip(lines[i]))];
      i := i + 1;
    }
    assert lines[..i] == lines;
  }

  /** One more line read is one more progress signal at the end. */
  lemma ProgressLinesSnoc(lines: seq<string>, i: nat)
    requires i < |lines|
    ensures ProgressLines(lines[..i + 1]) == ProgressLines(lines[..i]) + [Output(Strip(lines[i]))]
  {
  }

  class EngineExportWorker {
    const modelName: string
    const precision: string
    const device: string
    const calibrationYamlPath: Option<Path>

    constructor (modelName: string, precision: string, device: string, calibrationYamlPath: Option<Path>)
      ensures this.modelName == modelName && this.precision == precision
      ensures this.device == device && this.calibrationYamlPath == calibrationYamlPath
    {
      this.modelName := modelName;
      this.precision := precision;
      this.device := device;
      this.calibrationYamlPath := calibrationYamlPath;
    }

    /** The checks after the weights file was found, and the building of the command. */
    method PrepareCommand(files: set<Path>, w: ExportWorld, modelPath: Path) returns (p: Preparation)
      ensures p == Prepare(files, w, modelPath, precision, device, calibrationYamlPath)
    {
      var cmd := ["yolo", "export", "model=" + Str(modelPath), "format=engine", "device=" + device];
      if precision == "fp16" {
        cmd := cmd + ["half"];
      } else if precision == "int8" {
        if calibrationYamlPath.None? || calibrationYamlPath.value !in files {
          return Refused(Fault(Expected, "INT8 calibration requires a valid calibration YAML file to be selected."));
        }
        var yamlDir := Parent(calibrationYamlPath.value);
        match w.calibration
        case LoadFault(f) =>
          return Refused(f);
        case NotMapping(ty) =>
          return Refused(Fault(Unexpected, "argument of type '" + ty + "' is not iterable"));
        case Mapping(data) =>
          var r := RebaseCalibration(data, yamlDir, w.cwd);
          match r
          case RebaseFault(f) =>
            return Refused(f);
          case Rebased(d) =>
            cmd := cmd + ["int8"];
            cmd := cmd + ["data=" + Str(w.tempFile)];
            return Ready(cmd, Some(d));
      }
      p := Ready(cmd, None);
    }

    /** The branches on `proc.returncode` and on the generic engine file being present. */
    method DecideOutcome(files: set<Path>, generic: Path, exitCode: int, renameFault: Option<Fault>)
      returns (l: Launch)
      requires generic.parts != []
      ensures l == Verdict(files, generic, exitCode, renameFault, modelName, precision)
    {
      var log: seq<Signal> := [];
      var fs := files;
      if exitCode == 0 {
        if generic in fs {
          var renamed := RenamedEngine(generic, precision);
          if renameFault.Some? {
            return Launch(Failure(renameFault.value, modelName, precision), fs);
          }
          fs := fs - {generic} + {renamed};
          log := log + [Output("Engine build successful. Renamed to " + Name(renamed) + ".")];
          log := log + [Done(true, modelName, precision, "Engine build successful.")];
        } else {
          log := log + [Output("Engine build failed. Engine file not found.")];
          log := log + [Done(false, modelName, precision, "Failed to create TensorRT engine.")];
        }
      } else {
        log := log + [Output("Engine build failed with exit code " + IntToString(exitCode) + ".")];
        log := log + [Done(false, modelName, precision, "Engine build failed.")];
      }
      l := Launch(log, fs);
    }

    /** `Popen` and what follows it inside the try block, up to its handlers. */
    method RunProcess(files: set<Path>, w: ExportWorld, modelPath: Path) returns (l: Launch)
      ensures l == Launched(files, w, modelPath, modelName, precision)
    {
      match w.process
      case LaunchFault(f) =>
        l := Launch(Failure(f, modelName, precision), files);
      case Exited(lines, exitCode, producedEngine) =>
        var progress := EmitProgress(lines);
        var generic := GenericEngine(modelPath);
        var fs := if producedEngine then files + {generic} else files;
        var v := DecideOutcome(fs, generic, exitCode, w.renameFault);
        l := Launch(progress + v.log, v.files);
      case ReadFault(lines, f, producedEngine) =>
        // The loop emits what it read before the exception reaches the handlers.
        var progress := EmitProgress(lines);
        var generic := GenericEngine(modelPath);
        var fs := if producedEngine then files + {generic} else files;
        l := Launch(progress + Failure(f, modelName, precision), fs);
    }

    /**
     * `run` once the command is built: the rewritten calibration data dumped
     * into the temporary file, the subprocess, and, in the `finally` clause,
     * the temporary file removed if it exists.
     */
    method RunPrepared(files: set<Path>, w: ExportWorld, modelPath: Path, command: seq<string>,
                       data: Option<map<string, YamlValue>>) returns (t: ExportTrace)
      ensures t == ReadyTrace(files, w, modelPath, modelName, precision, command, data)
    {
      var fs := files;
      var tempYamlFile: Option<Path> := None;
      if data.Some? {
        fs := fs + {w.tempFile};
        tempYamlFile := Some(w.tempFile);
      }
      var l := RunProcess(fs, w, modelPath);
      fs := l.files;
      // finally
      if tempYamlFile.Some? && tempYamlFile.value in fs {
        fs := fs - {tempYamlFile.value};
      }
      t := ExportTrace([StartLine(modelName, precision)] + l.log, fs, Some(command), data);
    }

    /** `run` after the weights check: the preparation, then the subprocess or the handler. */
    method BuildFromWeights(files: set<Path>, w: ExportWorld, modelPath: Path) returns (t: ExportTrace)
      ensures t == Started(files, w, modelPath, modelName, precision, device, calibrationYamlPath)
    {
      var p := PrepareCommand(files, w, modelPath);
      match p {
        case Refused(f) =>
          t := ExportTrace([StartLine(modelName, precision)] + Failure(f, modelName, precision), files, None, None);
        case Ready(cmd, data) =>
          t := RunPrepared(files, w, modelPath, cmd, data);
      }
    }

    /** `run`: a missing weights file raises before anything else happens. */
    method Run(files: set<Path>, w: ExportWorld) returns (t: ExportTrace)
      ensures t == Export(files, w, modelName, precision, device, calibrationYamlPath)
    {
      var modelPath := WeightsFile(Parse(w.weightsDir), modelName);
      if modelPath !in files {
        var f := Fault(Expected, "Model file not found at " + Str(modelPath) + ". Please download the model first.");
        t := ExportTrace(Failure(f, modelName, precision), files, None, None);
      } else {
        t := BuildFromWeights(files, w, modelPath);
      }
    }
  }

  // ----- What one run guarantees -----

  /** Only `output` signals, then one `done` for `modelName` at `precision`. */
  predicate OutputsThenDone(log: seq<Signal>, modelName: string, precision: string) {
    |log| > 0 &&
    (forall i :: 0 <= i < |log| - 1 ==> log[i].Output?) &&
    log[|log| - 1].Done? && log[|log| - 1].modelName == modelName && log[|log| - 1].precision == precision
  }

  lemma OutputsThenDoneSingle(log: seq<Signal>, modelName: string, precision: string)
    requires OutputsThenDone(log, modelName, precision)
    ensures SingleTerminal(log)
  {
  }

  /** Outputs put in front keep the shape. */
  lemma OutputsBefore(before: seq<Signal>, log: seq<Signal>, modelName: string, precision: string)
    requires forall i :: 0 <= i < |before| ==> before[i].Output?
    requires OutputsThenDone(log, modelName, precision)
    ensures OutputsThenDone(before + log, modelName, precision)
  {
    var r := before + log;
    forall i | 0 <= i < |r| - 1
      ensures r[i].Output?
    {
      if i < |before| {
        assert r[i] == before[i];
      } else {
        assert r[i] == log[i - |before|];
      }
    }
    assert r[|r| - 1] == log[|log| - 1];
  }

  lemma LaunchedShape(files: set<Path>, w: ExportWorld, modelPath: Path, modelName: string, precision: string)
    ensures OutputsThenDone(Launched(files, w, modelPath, modelName, precision).log, modelName, precision)
  {
    match w.process
    case LaunchFault(f) =>
    case Exited(lines, code, produced) =>
      var g := GenericEngine(modelPath);
      var fs := if produced then files + {g} else files;
      var v := Verdict(fs, g, code, w.renameFault, modelName, precision);
      VerdictOutcome(fs, g, code, w.renameFault, modelName, precision);
      OutputsBefore(ProgressLines(lines), v.log, modelName, precision);
    case ReadFault(lines, f, produced) =>
      OutputsBefore(ProgressLines(lines), Failure(f, modelName, precision), modelName, precision);
  }

  lemma ReadyShape(files: set<Path>, w: ExportWorld, modelPath: Path, modelName: string, precision: string,
                   command: seq<string>, data: Option<map<string, YamlValue>>)
    ensures OutputsThenDone(ReadyTrace(files, w, modelPath, modelName, precision, command, data).log, modelName, precision)
  {
    var staged := if data.Some? then files + {w.tempFile} else files;
    LaunchedShape(staged, w, modelPath, modelName, precision);
    OutputsBefore([StartLine(modelName, precision)], Launched(staged, w, modelPath, modelName, precision).log,
                  modelName, precision);
  }

  lemma ProceedShape(files: set<Path>, w: ExportWorld, modelPath: Path, modelName: string, precision: string,
                     prep: Preparation)
    ensures OutputsThenDone(Proceed(files, w, modelPath, modelName, precision, prep).log, modelName, precision)
  {
    match prep
    case Refused(f) =>
      OutputsBefore([StartLine(modelName, precision)], Failure(f, modelName, precision), modelName, precision);
    case Ready(cmd, data) =>
      ReadyShape(files, w, modelPath, modelName, precision, cmd, data);
  }

  /** Every run emits only `output` signals and then one `done` for the worker's model and precision. */
  lemma ExportShape(files: set<Path>, w: ExportWorld, modelName: string, precision: string,
                    device: string, calibration: Option<Path>)
    ensures OutputsThenDone(Export(files, w, modelName, precision, device, calibration).log, modelName, precision)
  {
    var mp := WeightsFile(Parse(w.weightsDir), modelName);
    if mp in files {
      ProceedShape(files, w, mp, modelName, precision, Prepare(files, w, mp, precision, device, calibration));
    } else {
      ExportMissingWeights(files, w, modelName, precision, device, calibration);
    }
  }

  /**
   * Every run emits `done` exactly once, as its last signal, carrying the
   * worker's model name and precision; everything before it is `output`.
   */
  lemma ExportEndsWithOneDone(files: set<Path>, w: ExportWorld, modelName: string, precision: string,
                              device: string, calibration: Option<Path>)
    ensures var t := Export(files, w, modelName, precision, device, calibration);
      OutputsThenDone(t.log, modelName, precision) && SingleTerminal(t.log)
  {
    ExportShape(files, w, modelName, precision, device, calibration);
    OutputsThenDoneSingle(Export(files, w, modelName, precision, device, calibration).log, modelName, precision);
  }

  /** Without the weights file the run fails at once: no command, no temporary file, nothing changed. */
  lemma ExportMissingWeights(files: set<Path>, w: ExportWorld, modelName: string, precision: string,
                             device: string, calibration: Option<Path>)
    requires WeightsFile(Parse(w.weightsDir), modelName) !in files
    ensures var t := Export(files, w, modelName, precision, device, calibration);
      var message := "Model file not found at " + Str(WeightsFile(Parse(w.weightsDir), modelName)) +
                     ". Please download the model first.";
      t.command.None? && t.tempData.None? && t.files == files &&
      t.log == [Output("Error: " + message), Done(false, modelName, precision, message)]
  {
  }

  /**
   * INT8 without a calibration file, or with one that does not exist, fails
   * before the subprocess and before any temporary file.
   */
  lemma ExportInt8NeedsCalibration(files: set<Path>, w: ExportWorld, modelName: string, device: string,
                                   calibration: Option<Path>)
    requires WeightsFile(Parse(w.weightsDir), modelName) in files
    requires calibration.None? || calibration.value !in files
    ensures var t := Export(files, w, modelName, "int8", device, calibration);
      var message := "INT8 calibration requires a valid calibration YAML file to be selected.";
      t.command.None? && t.tempData.None? && t.files == files &&
      t.log == [StartLine(modelName, "int8"), Output("Error: " + message), Done(false, modelName, "int8", message)]
  {
  }

  /**
   * The subprocess is started exactly when the weights exist and, for INT8,
   * the calibration file exists and rewrites cleanly; it is started with the
   * command `ExportCommand` describes, and the temporary file holds the
   * rewritten calibration data exactly for INT8.
   */
  lemma ExportCommandIssued(files: set<Path>, w: ExportWorld, modelName: string, precision: string,
                            device: string, calibration: Option<Path>)
    ensures var t := Export(files, w, modelName, precision, device, calibration);
      var mp := WeightsFile(Parse(w.weightsDir), modelName);
      (t.command.Some? <==>
        mp in files &&
        (precision == "int8" ==> (calibration.Some? && calibration.value in files &&
           LoadCalibration(w.calibration, Parent(calibration.value), w.cwd).Rebased?))) &&
      (t.command.Some? ==> t.command.value == ExportCommand(mp, device, precision, w.tempFile)) &&
      (t.tempData.Some? <==> t.command.Some? && precision == "int8") &&
      (t.tempData.Some? ==> t.tempData.value == LoadCalibration(w.calibration, Parent(calibration.value), w.cwd).data)
  {
    var mp := WeightsFile(Parse(w.weightsDir), modelName);
    if mp in files {
      var prep := Prepare(files, w, mp, precision, device, calibration);
      PrepareOutcome(files, w, mp, precision, device, calibration);
      ProceedCommand(files, w, mp, modelName, precision, prep);
      assert Export(files, w, modelName, precision, device, calibration) == Proceed(files, w, mp, modelName, precision, prep);
    }
  }

  /**
   * The preparation succeeds exactly when, for INT8, the calibration file
   * exists and rewrites cleanly; it then gives `ExportCommand` and, for INT8
   * only, the rewritten data.
   */
  lemma PrepareOutcome(files: set<Path>, w: ExportWorld, modelPath: Path, precision: string, device: string,
                       calibration: Option<Path>)
    ensures var p := Prepare(files, w, modelPath, precision, device, calibration);
      (p.Ready? <==>
        (precision == "int8" ==> (calibration.Some? && calibration.value in files &&
           LoadCalibration(w.calibration, Parent(calibration.value), w.cwd).Rebased?))) &&
      (p.Ready? ==> p.command == ExportCommand(modelPath, device, precision, w.tempFile)) &&
      (p.Ready? ==> (p.data.Some? <==> precision == "int8")) &&
      (p.Ready? && p.data.Some? ==> p.data.value == LoadCalibration(w.calibration, Parent(calibration.value), w.cwd).data)
  {
  }

  /** The command is issued exactly when the preparation succeeded, with the data it prepared. */
  lemma ProceedCommand(files: set<Path>, w: ExportWorld, modelPath: Path, modelName: string, precision: string,
                       prep: Preparation)
    ensures var t := Proceed(files, w, modelPath, modelName, precision, prep);
      t.command == (if prep.Ready? then Some(prep.command) else None) &&
      t.tempData == (if prep.Ready? then prep.data else None)
  {
    if prep.Ready? {
      ReadyTraceCommand(files, w, modelPath, modelName, precision, prep.command, prep.data);
    }
  }

  /** Once prepared, the command is issued and the temporary file holds the prepared data. */
  lemma ReadyTraceCommand(files: set<Path>, w: ExportWorld, modelPath: Path, modelName: string, precision: string,
                          command: seq<string>, data: Option<map<string, YamlValue>>)
    ensures var t := ReadyTrace(files, w, modelPath, modelName, precision, command, data);
      t.command == Some(command) && t.tempData == data
  {
  }

  /** A temporary file that was written is gone when the run ends. */
  lemma ExportRemovesTemp(files: set<Path>, w: ExportWorld, modelName: string, precision: string,
                          device: string, calibration: Option<Path>)
    ensures var t := Export(files, w, modelName, precision, device, calibration);
      t.tempData.Some? ==> w.tempFile !in t.files
  {
  }

  /** The decision on the exit code: success exactly for exit code 0, an engine file present and a clean rename. */
  lemma VerdictOutcome(files: set<Path>, generic: Path, exitCode: int, renameFault: Option<Fault>,
                       modelName: string, precision: string)
    requires generic.parts != []
    ensures var v := Verdict(files, generic, exitCode, renameFault, modelName, precision);
      |v.log| == 2 && OutputsThenDone(v.log, modelName, precision) &&
      (Last(v.log).success <==> exitCode == 0 && generic in files && renameFault.None?) &&
      (Last(v.log).success ==> v.files == files - {generic} + {RenamedEngine(generic, precision)}) &&
      (!Last(v.log).success ==> v.files == files)
  {
  }

  /** The file `yolo export` writes may be there already or be produced by it. */
  lemma LaunchedOutcome(files: set<Path>, w: ExportWorld, modelPath: Path, modelName: string, precision: string)
    ensures var l := Launched(files, w, modelPath, modelName, precision);
      var g := GenericEngine(modelPath);
      OutputsThenDone(l.log, modelName, precision) &&
      (Last(l.log).success <==>
        w.process.Exited? && w.process.exitCode == 0 && (w.process.producedEngine || g in files) &&
        w.renameFault.None?) &&
      (Last(l.log).success ==> l.files == files - {g} + {RenamedEngine(g, precision)}) &&
      (!Last(l.log).success ==> files <= l.files <= files + {g})
  {
    LaunchedShape(files, w, modelPath, modelName, precision);
    if w.process.Exited? {
      ExitedOutcome(files, w, modelPath, modelName, precision);
    }
  }

  /** A subprocess that exited is decided by `Verdict`, after its progress lines. */
  lemma ExitedOutcome(files: set<Path>, w: ExportWorld, modelPath: Path, modelName: string, precision: string)
    requires w.process.Exited?
    ensures var l := Launched(files, w, modelPath, modelName, precision);
      var g := GenericEngine(modelPath);
      |l.log| > 0 &&
      (Last(l.log).success <==> w.process.exitCode == 0 && (w.process.producedEngine || g in files) && w.renameFault.None?) &&
      (Last(l.log).success ==> l.files == files - {g} + {RenamedEngine(g, precision)}) &&
      (!Last(l.log).success ==> files <= l.files <= files + {g})
  {
    var g := GenericEngine(modelPath);
    var fs := if w.process.producedEngine then files + {g} else files;
    var v := Verdict(fs, g, w.process.exitCode, w.renameFault, modelName, precision);
    VerdictOutcome(fs, g, w.process.exitCode, w.renameFault, modelName, precision);
    var l := Launched(files, w, modelPath, modelName, precision);
    assert l.log == ProgressLines(w.process.lines) + v.log;
    assert Last(l.log) == Last(v.log);
    if Last(v.log).success {
      assert fs - {g} == files - {g};
    }
  }

  /** A name ending in ".yaml" is not a name ending in ".engine". */
  lemma YamlIsNotEngine(yaml: string, base: string)
    requires EndsWith(yaml, ".yaml")
    ensures yaml != base + ".engine"
  {
    assert yaml[|yaml| - 1] == yaml[|yaml| - 5..][4];
    var e := base + ".engine";
    assert e[|e| - 1] == 'e';
  }

  /** The temporary file is neither the generic nor the renamed engine file. */
  lemma TempIsNoEngine(tempFile: Path, modelPath: Path, precision: string)
    requires EndsWith(Name(tempFile), ".yaml")
    ensures tempFile != GenericEngine(modelPath)
    ensures tempFile != RenamedEngine(GenericEngine(modelPath), precision)
  {
    var g := GenericEngine(modelPath);
    YamlIsNotEngine(Name(tempFile), Stem(Name(modelPath)));
    YamlIsNotEngine(Name(tempFile), Stem(Name(g)) + "-" + precision);
    assert Stem(Name(g)) + "-" + precision + ".engine" == (Stem(Name(g)) + "-" + precision) + ".engine";
  }

  lemma ReadyOutcome(files: set<Path>, w: ExportWorld, modelPath: Path, modelName: string, precision: string,
                     command: seq<string>, data: Option<map<string, YamlValue>>)
    requires w.tempFile !in files && EndsWith(Name(w.tempFile), ".yaml")
    ensures var t := ReadyTrace(files, w, modelPath, modelName, precision, command, data);
      var g := GenericEngine(modelPath);
      OutputsThenDone(t.log, modelName, precision) &&
      (Last(t.log).success <==>
        w.process.Exited? && w.process.exitCode == 0 && (w.process.producedEngine || g in files) &&
        w.renameFault.None?) &&
      (Last(t.log).success ==> t.files == files - {g} + {RenamedEngine(g, precision)}) &&
      (!Last(t.log).success ==> files <= t.files <= files + {g})
  {
    var staged := if data.Some? then files + {w.tempFile} else files;
    var g := GenericEngine(modelPath);
    TempIsNoEngine(w.tempFile, modelPath, precision);
    LaunchedOutcome(staged, w, modelPath, modelName, precision);
    ReadyShape(files, w, modelPath, modelName, precision, command, data);
    var l := Launched(staged, w, modelPath, modelName, precision);
    var t := ReadyTrace(files, w, modelPath, modelName, precision, command, data);
    assert Last(t.log) == Last(l.log);
    assert g in staged <==> g in files;
  }

  /**
   * Success exactly when the subprocess ran, exited with 0, the generic
   * engine file is there afterwards and the rename went through; then the
   * generic file has become the precision-tagged one. A failed run renames
   * nothing: at most the generic engine file appears.
   */
  lemma ExportOutcome(files: set<Path>, w: ExportWorld, modelName: string, precision: string,
                      device: string, calibration: Option<Path>)
    requires w.tempFile !in files && EndsWith(Name(w.tempFile), ".yaml")
    ensures var t := Export(files, w, modelName, precision, device, calibration);
      var g := GenericEngine(WeightsFile(Parse(w.weightsDir), modelName));
      OutputsThenDone(t.log, modelName, precision) &&
      (Last(t.log).success <==>
        t.command.Some? && w.process.Exited? && w.process.exitCode == 0 &&
        (w.process.producedEngine || g in files) && w.renameFault.None?) &&
      (Last(t.log).success ==> t.files == files - {g} + {RenamedEngine(g, precision)}) &&
      (!Last(t.log).success ==> files <= t.files <= files + {g})
  {
    ExportEndsWithOneDone(files, w, modelName, precision, device, calibration);
    var mp := WeightsFile(Parse(w.weightsDir), modelName);
    if mp in files {
      ProceedOutcome(files, w, mp, modelName, precision, Prepare(files, w, mp, precision, device, calibration));
    }
  }

  lemma ProceedOutcome(files: set<Path>, w: ExportWorld, modelPath: Path, modelName: string, precision: string,
                       prep: Preparation)
    requires w.tempFile !in files && EndsWith(Name(w.tempFile), ".yaml")
    ensures var t := Proceed(files, w, modelPath, modelName, precision, prep);
      var g := GenericEngine(modelPath);
      OutputsThenDone(t.log, modelName, precision) &&
      (t.command.Some? <==> prep.Ready?) &&
      (Last(t.log).success <==>
        prep.Ready? && w.process.Exited? && w.process.exitCode == 0 && (w.process.producedEngine || g in files) &&
        w.renameFault.None?) &&
      (Last(t.log).success ==> t.files == files - {g} + {RenamedEngine(g, precision)}) &&
      (!Last(t.log).success ==> files <= t.files <= files + {g})
  {
    ProceedShape(files, w, modelPath, modelName, precision, prep);
    match prep
    case Refused(f) =>
    case Ready(cmd, data) =>
      ReadyOutcome(files, w, modelPath, modelName, precision, cmd, data);
      ReadyTraceCommand(files, w, modelPath, modelName, precision, cmd, data);
  }

  lemma ReadyProgress(files: set<Path>, w: ExportWorld, modelPath: Path, modelName: string, precision: string,
                      command: seq<string>, data: Option<map<string, YamlValue>>)
    requires !w.process.LaunchFault?
    ensures var t := ReadyTrace(files, w, modelPath, modelName, precision, command, data);
      |t.log| >= 1 + |w.process.lines| && t.log[1..1 + |w.process.lines|] == ProgressLines(w.process.lines)
  {
    var staged := if data.Some? then files + {w.tempFile} else files;
    var g := GenericEngine(modelPath);
    var rest := if w.process.Exited? then
        Verdict(if w.process.producedEngine then staged + {g} else staged, g, w.process.exitCode,
                w.renameFault, modelName, precision).log
      else Failure(w.process.fault, modelName, precision);
    assert ReadyTrace(files, w, modelPath, modelName, precision, command, data).log ==
      [StartLine(modelName, precision)] + (ProgressLines(w.process.lines) + rest);
    MiddleSlice(StartLine(modelName, precision), ProgressLines(w.process.lines), rest);
  }

  /** The slice of the log after the start line is the progress; the solver needs it index by index. */
  lemma MiddleSlice(first: Signal, middle: seq<Signal>, rest: seq<Signal>)
    ensures ([first] + (middle + rest))[1..1 + |middle|] == middle
  {
    var log := [first] + (middle + rest);
    assert forall i :: 0 <= i < |middle| ==> log[1 + i] == middle[i];
  }

  /**
   * Once the subprocess ran, the lines read from it follow the first `output`,
   * stripped and in order, whether it exited or reading its output failed.
   */
  lemma ExportRelaysProgress(files: set<Path>, w: ExportWorld, modelName: string, precision: string,
                             device: string, calibration: Option<Path>)
    requires !w.process.LaunchFault?
    ensures var t := Export(files, w, modelName, precision, device, calibration);
      t.command.Some? ==>
        |t.log| >= 1 + |w.process.lines| && t.log[1..1 + |w.process.lines|] == ProgressLines(w.process.lines)
  {
    var mp := WeightsFile(Parse(w.weightsDir), modelName);
    if mp in files {
      match Prepare(files, w, mp, precision, device, calibration)
      case Refused(f) =>
      case Ready(cmd, data) =>
        ReadyProgress(files, w, mp, modelName, precision, cmd, data);
    }
  }

  // ----- The worker's files and the manager's names -----

  /** `<id>.pt` in a directory: one more part, whose stem is the identifier. */
  lemma {:induction false} WeightsFileOfIdentifier(dir: Path, modelName: string)
    requires modelName != "" && '/' !in modelName
    ensures WeightsFile(dir, modelName) == Path(dir.absolute, dir.parts + [modelName + ".pt"])
    ensures Stem(Name(WeightsFile(dir, modelName))) == modelName
  {
    var weights := modelName + ".pt";
    NoSlashConcat(modelName, ".pt");
    assert weights[0] == modelName[0];
    JoinPart(dir, weights);
    assert weights == modelName + "." + "pt";
    StemOfSuffixed(modelName, "pt");
  }

  /** The generic engine of `<id>.pt` is `<id>.engine` beside it, and its stem is the identifier. */
  lemma {:induction false} GenericEngineOfIdentifier(dir: Path, modelName: string)
    requires modelName != "" && '/' !in modelName
    ensures GenericEngine(WeightsFile(dir, modelName)) == Path(dir.absolute, dir.parts + [modelName + ".engine"])
    ensures Stem(Name(GenericEngine(WeightsFile(dir, modelName)))) == modelName
  {
    WeightsFileOfIdentifier(dir, modelName);
    var generic := modelName + ".engine";
    assert generic == modelName + "." + "engine";
    StemOfSuffixed(modelName, "engine");
  }

  /**
   * For an identifier without ".pt" and a precision without '/', the worker
   * reads the manager's weight file and leaves its engine exactly where
   * `get_engine_path` looks for it.
   */
  lemma {:induction false} WorkerMatchesManager(dir: Path, modelName: string, precision: string)
    requires modelName != "" && '/' !in modelName && !EndsWith(modelName, ".pt") && '/' !in precision
    ensures WeightsFile(dir, modelName) == ModelFilePath(dir, modelName)
    ensures RenamedEngine(GenericEngine(WeightsFile(dir, modelName)), precision) == EnginePath(dir, modelName, precision)
  {
    var tagged := modelName + "-" + precision + ".engine";
    GenericEngineOfIdentifier(dir, modelName);
    assert RenamedEngine(GenericEngine(WeightsFile(dir, modelName)), precision) == Path(dir.absolute, dir.parts + [tagged]);
    EnginePathOfIdentifier(dir, modelName, precision);
    TaggedIsPart(modelName, precision);
    JoinPart(dir, tagged);
  }

  /**
   * An identifier given with ".pt" is looked up by the worker as "<id>.pt.pt",
   * which is not the manager's weight file for it.
   */
  lemma WorkerDoublesSuffix(dir: Path, base: string)
    requires base != "" && '/' !in base
    ensures WeightsFile(dir, base + ".pt") != ModelFilePath(dir, base + ".pt")
  {
    var once := base + ".pt";
    var twice := once + ".pt";
    assert EndsWith(once, ".pt") by {
      assert once[|once| - 3..] == ".pt";
    }
    NoSlashConcat(base, ".pt");
    NoSlashConcat(once, ".pt");
    assert IsPart(once) && IsPart(twice) by {
      assert once[0] == base[0] && twice[0] == base[0];
    }
    assert |once| != |twice|;
    LastParts(dir, twice, once);
  }

  /**
   * A successful export of an identifier without ".pt" leaves the weight
   * file in place and makes `engine_exists` true for that precision.
   */
  lemma ExportSuccessMeansEngineExists(files: set<Path>, w: ExportWorld, modelName: string, precision: string,
                                       device: string, calibration: Option<Path>)
    requires modelName != "" && '/' !in modelName && !EndsWith(modelName, ".pt") && '/' !in precision
    requires w.tempFile !in files && EndsWith(Name(w.tempFile), ".yaml")
    ensures var t := Export(files, w, modelName, precision, device, calibration);
      OutputsThenDone(t.log, modelName, precision) &&
      (Last(t.log).success ==>
        IsModelDownloaded(files, Parse(w.weightsDir), "", modelName) &&
        IsModelDownloaded(t.files, Parse(w.weightsDir), "", modelName) &&
        EngineExists(t.files, Parse(w.weightsDir), modelName, precision))
  {
    var dir := Parse(w.weightsDir);
    ExportOutcome(files, w, modelName, precision, device, calibration);
    ExportCommandIssued(files, w, modelName, precision, device, calibration);
    WorkerMatchesManager(dir, modelName, precision);
    WeightsFileOfIdentifier(dir, modelName);
    GenericEngineOfIdentifier(dir, modelName);
    var mp := WeightsFile(dir, modelName);
    var g := GenericEngine(mp);
    assert mp != g by {
      assert mp.parts[|dir.parts|] == modelName + ".pt";
      assert g.parts[|dir.parts|] == modelName + ".engine";
      assert |modelName + ".pt"| != |modelName + ".engine"|;
    }
  }
}
