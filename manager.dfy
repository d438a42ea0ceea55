/**
 * The model store of `model_manager/core/model_manager.py`: where weight files
 * and compiled engines live in the weights directory, presence queries over
 * the filesystem, the download and stub build that add files, and the
 * one-slot cache of the loaded model.
 *
 * The filesystem is the set of paths present; an operation that changes it
 * takes the set before and returns the set after.
 */
module Manager {
  import opened Wrappers
  import opened Text
  import opened PurePath

  /** The two standard streams a delegate may print to. */
  datatype StdStream = Stdout | Stderr

  /** One `write(text)` call on a standard stream. */
  datatype Chunk = Chunk(stream: StdStream, text: string)

  /**
   * One call of ultralytics' `YOLO(path)` used as a downloader, seen from
   * outside: what it printed, whether it left the weight file behind, and
   * the message of the exception it raised, if it raised one.
   */
  datatype DelegateRun = DelegateRun(writes: seq<Chunk>, created: bool, raised: Option<string>)

  /** The model object `YOLO(path)` returns when it loads; only its identity matters here. */
  datatype Yolo = Yolo(handle: nat)

  /** `name` with ".pt" appended unless it already ends with ".pt". */
  function WithPt(name: string): (r: string)
    ensures EndsWith(r, ".pt")
    ensures EndsWith(name, ".pt") ==> r == name
    ensures !EndsWith(name, ".pt") ==> r == name + ".pt"
  {
    if EndsWith(name, ".pt") then name
    else assert (name + ".pt")[|name|..] == ".pt"; name + ".pt"
  }

  /** `ModelManager.model_file_path`: the weight file of a model. */
  function ModelFilePath(weightsDir: Path, modelName: string): (p: Path)
    ensures Normal(weightsDir) ==> Normal(p)
  {
    Join(weightsDir, WithPt(modelName))
  }

  /** `ModelManager.get_engine_path`: the compiled engine of a model at one precision. */
  function EnginePath(weightsDir: Path, modelName: string, precision: string): (p: Path)
    ensures Normal(weightsDir) ==> Normal(p)
  {
    Join(weightsDir, Stem(Name(Parse(WithPt(modelName)))) + "-" + precision + ".engine")
  }

  /** `ModelManager.engine_exists`. */
  predicate EngineExists(files: set<Path>, weightsDir: Path, modelName: string, precision: string) {
    EnginePath(weightsDir, modelName, precision) in files
  }

  /** `ModelManager.is_model_downloaded`; the version argument is not consulted. */
  predicate IsModelDownloaded(files: set<Path>, weightsDir: Path, version: string, modelName: string) {
    ModelFilePath(weightsDir, modelName) in files
  }

  /** `ModelManager.get_cached_model_path`. */
  function CachedModelPath(files: set<Path>, weightsDir: Path, modelName: string): (r: Option<Path>)
    ensures r.Some? <==> IsModelDownloaded(files, weightsDir, "", modelName)
    ensures r.Some? ==> r.value == ModelFilePath(weightsDir, modelName) && r.value in files
  {
    var path := ModelFilePath(weightsDir, modelName);
    if path in files then Some(path) else None
  }

  // ----- Properties of the naming scheme -----

  /** Appending ".pt" to a path that already names a weight file changes nothing. */
  lemma ModelFilePathIdempotent(weightsDir: Path, modelName: string)
    ensures ModelFilePath(weightsDir, WithPt(modelName)) == ModelFilePath(weightsDir, modelName)
    ensures !EndsWith(modelName, ".pt") ==>
      ModelFilePath(weightsDir, modelName + ".pt") == ModelFilePath(weightsDir, modelName)
  {
  }

  /** The engine of a weight file `<base>.pt` is `<weights_dir>/<base>-<precision>.engine`. */
  lemma {:induction false} EnginePathOfWeightFile(weightsDir: Path, base: string, precision: string)
    requires base != "" && '/' !in base
    ensures EnginePath(weightsDir, base + ".pt", precision) == Join(weightsDir, base + "-" + precision + ".engine")
  {
    var name := base + ".pt";
    assert EndsWith(name, ".pt") by {
      assert name[|name| - 3..] == ".pt";
    }
    assert name == base + "." + "pt";
    ParseSingle(name);
    StemOfSuffixed(base, "pt");
  }

  /**
   * For an identifier `base` that does not end in ".pt", the engine is
   * `<weights_dir>/<base>-<precision>.engine`, whether the identifier is given
   * with or without ".pt".
   */
  lemma {:induction false} EnginePathOfIdentifier(weightsDir: Path, base: string, precision: string)
    requires base != "" && '/' !in base && !EndsWith(base, ".pt")
    ensures EnginePath(weightsDir, base, precision) == Join(weightsDir, base + "-" + precision + ".engine")
    ensures EnginePath(weightsDir, base + ".pt", precision) == EnginePath(weightsDir, base, precision)
  {
    assert WithPt(base) == base + ".pt";
    EnginePathOfWeightFile(weightsDir, base, precision);
  }

  /**
   * For a name that already ends in ".pt", appending ".pt" once more does
   * change the engine path: only one ".pt" is ever taken off.
   */
  lemma {:induction false} EnginePathOfDoublePt(weightsDir: Path, base: string, precision: string)
    requires base != "" && '/' !in base && '/' !in precision
    ensures EnginePath(weightsDir, base + ".pt" + ".pt", precision) != EnginePath(weightsDir, base + ".pt", precision)
  {
    var once := base + "-" + precision + ".engine";
    var twice := (base + ".pt") + "-" + precision + ".engine";
    EnginePathOfWeightFile(weightsDir, base, precision);
    EnginePathOfWeightFile(weightsDir, base + ".pt", precision);
    assert twice[|base|] == '.' && once[|base|] == '-';
    TaggedIsPart(base, precision);
    NoSlashConcat(base, ".pt");
    TaggedIsPart(base + ".pt", precision);
    LastParts(weightsDir, twice, once);
  }

  /** `<id>-<precision>.engine` is a single part. */
  lemma TaggedIsPart(modelName: string, precision: string)
    requires modelName != "" && '/' !in modelName && '/' !in precision
    ensures IsPart(modelName + "-" + precision + ".engine")
  {
    var tagged := modelName + "-" + precision + ".engine";
    NoSlashConcat(modelName, "-");
    NoSlashConcat(modelName + "-", precision);
    NoSlashConcat(modelName + "-" + precision, ".engine");
    assert tagged[0] == modelName[0];
  }

  lemma LastParts(dir: Path, x: string, y: string)
    requires IsPart(x) && IsPart(y) && x != y
    ensures Join(dir, x) != Join(dir, y)
  {
    ParseSingle(x);
    ParseSingle(y);
    assert Join(dir, x).parts[|dir.parts|] == x;
    assert Join(dir, y).parts[|dir.parts|] == y;
  }

  /**
   * The state `ModelManager` keeps between calls: the weights directory
   * (ultralytics' `settings["weights_dir"]`) and the one-slot model cache.
   */
  class ModelManager {
    const weightsDir: Path
    var currentModel: Option<Yolo>
    var currentModelName: Option<string>

    /** The two cache fields are set and cleared together. */
    ghost predicate Valid()
      reads this
    {
      currentModel.Some? <==> currentModelName.Some?
    }

    constructor (weightsDir: Path)
      ensures this.weightsDir == weightsDir
      ensures currentModel == None && currentModelName == None
      ensures Valid()
    {
      this.weightsDir := weightsDir;
      currentModel := None;
      currentModelName := None;
    }

    /** `get_model`. */
    function GetModel(): Option<Yolo>
      reads this
    {
      currentModel
    }

    /** `clear_model`: both cache fields are emptied. */
    method ClearModel()
      modifies this
      ensures Valid()
      ensures currentModel == None && currentModelName == None && GetModel() == None
    {
      currentModel := None;
      currentModelName := None;
    }

    /**
     * `load_model`. The cache key is the string of the weight file path.
     * `construct` is what `YOLO(full_path)` would do: return a model, or
     * raise (None). A hit on the cache does not construct anything.
     */
    method LoadModel(modelName: string, construct: Option<Yolo>) returns (ok: bool)
      requires Valid()
      modifies this
      ensures Valid()
      ensures var key := Str(ModelFilePath(weightsDir, modelName));
        if old(currentModel).Some? && old(currentModelName) == Some(key) then
          ok && currentModel == old(currentModel) && currentModelName == old(currentModelName)
        else if construct.Some? then
          ok && currentModel == construct && currentModelName == Some(key)
        else
          !ok && currentModel == None && currentModelName == None
    {
      var fullPath := Str(ModelFilePath(weightsDir, modelName));
      if currentModel.Some? && currentModelName == Some(fullPath) {
        return true;
      }
      match construct
      case Some(model) =>
        currentModel := Some(model);
        currentModelName := Some(fullPath);
        ok := true;
      case None =>
        currentModel := None;
        currentModelName := None;
        ok := false;
    }

    /**
     * `download_model`. A weight file already present is reported without
     * calling the delegate; otherwise the answer is whether the file exists
     * after the delegate returned, and false when it raised.
     */
    method DownloadModel(version: string, model: string, files: set<Path>, delegate: DelegateRun)
      returns (ok: bool, after: set<Path>)
      ensures var path := ModelFilePath(weightsDir, model);
        if path in files then ok && after == files
        else
          after == (if delegate.created then files + {path} else files) &&
          (ok <==> delegate.raised.None? && path in after)
      ensures ok ==> IsModelDownloaded(after, weightsDir, version, model)
    {
      var name := WithPt(model);
      var modelPath := ModelFilePath(weightsDir, name);
      ModelFilePathIdempotent(weightsDir, model);
      if modelPath in files {
        return true, files;
      }
      after := if delegate.created then files + {modelPath} else files;
      if delegate.raised.Some? {
        ok := false;
      } else {
        ok := modelPath in after;
      }
    }

    /** The `build_engine` stub: it creates the engine file and reports that it exists. */
    method BuildEngine(model: string, precision: string, files: set<Path>) returns (ok: bool, after: set<Path>)
      ensures after == files + {EnginePath(weightsDir, model, precision)}
      ensures ok && EngineExists(after, weightsDir, model, precision)
    {
      var enginePath := EnginePath(weightsDir, model, precision);
      after := files + {enginePath};
      ok := enginePath in after;
    }
  }
}
