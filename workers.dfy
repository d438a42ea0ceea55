/**
 * The background tasks of `model_manager/core/worker_threads.py`: the stream
 * redirect used while ultralytics downloads, the download worker and the
 * engine export worker.
 *
 * A Qt signal emitted by a worker is an entry appended to the worker's signal
 * log. Everything the workers consult outside the process (the filesystem,
 * the downloader, the calibration YAML as parsed, the `yolo` subprocess, the
 * temporary file name, the rename) is an input; the filesystem is the set of
 * paths present, passed in and returned.
 */
module Workers {
  import opened Wrappers
  import opened Text
  import opened PurePath
  import opened Manager

  // ----- Signals -----

  /** One emitted signal: `output(str)`, `download_complete(bool, str)` or `done(bool, str, str, str)`. */
  datatype Signal =
    | Output(text: string)
    | DownloadComplete(success: bool, message: string)
    | Done(success: bool, modelName: string, precision: string, message: string)

  predicate IsTerminal(s: Signal) {
    s.DownloadComplete? || s.Done?
  }

  /** The log ends with a terminal signal and holds no other. */
  predicate SingleTerminal(log: seq<Signal>) {
    |log| > 0 && IsTerminal(log[|log| - 1]) &&
    forall i :: 0 <= i < |log| - 1 ==> !IsTerminal(log[i])
  }

  function Last(log: seq<Signal>): Signal
    requires |log| > 0
  {
    log[|log| - 1]
  }

  // ----- StreamRedirect -----

  /** What `sys.stdout` or `sys.stderr` is bound to. */
  datatype Stream = Console(name: string) | Redirected(redirect: StreamRedirect)

  /** `StreamRedirect(old_stream)`: its only state is the stream it wraps. */
  datatype StreamRedirect = StreamRedirect(oldStream: Stream) {

    /**
     * `write(text)`: the text always reaches the wrapped stream, and it is
     * emitted as `output` only when it is not whitespace alone.
     */
    function Write(text: string): (r: WriteEffect)
      ensures r.forwarded == Written(oldStream, text)
      ensures r.signal.Some? <==> !IsBlank(text)
      ensures r.signal.Some? ==> r.signal.value == Output(text)
    {
      WriteEffect(if !IsBlank(text) then Some(Output(text)) else None, Written(oldStream, text))
    }
  }

  /** The test `write` applies is `text.strip()` being non-empty. */
  lemma WriteTestsStrip(redirect: StreamRedirect, text: string)
    ensures redirect.Write(text).signal.Some? <==> Strip(text) != []
  {
  }

  /** Text that reached a stream object. */
  datatype Written = Written(stream: Stream, text: string)

  datatype WriteEffect = WriteEffect(signal: Option<Signal>, forwarded: Written)

  /** `sys.stdout` and `sys.stderr`. */
  datatype Streams = Streams(stdout: Stream, stderr: Stream)

  function Bound(streams: Streams, s: StdStream): Stream {
    if s == Stdout then streams.stdout else streams.stderr
  }

  /** The `output` signals a sequence of writes raises through redirects: the non-blank texts, in order. */
  function Echoed(writes: seq<Chunk>): (r: seq<Signal>)
    ensures forall i :: 0 <= i < |r| ==> r[i].Output?
    ensures |r| <= |writes|
    decreases |writes|
  {
    if writes == [] then []
    else
      var text := writes[|writes| - 1].text;
      Echoed(writes[..|writes| - 1]) + (if IsBlank(text) then [] else [Output(text)])
  }

  /** What a sequence of writes through redirects of `streams` delivers to the wrapped streams. */
  function Delivered(writes: seq<Chunk>, streams: Streams): (r: seq<Written>)
    ensures |r| == |writes|
    ensures forall i :: 0 <= i < |r| ==> r[i] == Written(Bound(streams, writes[i].stream), writes[i].text)
    decreases |writes|
  {
    if writes == [] then []
    else
      var c := writes[|writes| - 1];
      Delivered(writes[..|writes| - 1], streams) + [Written(Bound(streams, c.stream), c.text)]
  }

  lemma EchoedSnoc(writes: seq<Chunk>, c: Chunk)
    ensures Echoed(writes + [c]) == Echoed(writes) + (if IsBlank(c.text) then [] else [Output(c.text)])
  {
    assert (writes + [c])[..|writes|] == writes;
  }

  /** The signal list one write adds to the log. */
  function Emitted(e: WriteEffect): seq<Signal> {
    if e.signal.Some? then [e.signal.value] else []
  }

  /** Relaying one more write through a redirect extends the `output` signals by what that write emits. */
  lemma RelayStep(writes: seq<Chunk>, c: Chunk, redirect: StreamRedirect)
    ensures Echoed(writes + [c]) == Echoed(writes) + Emitted(redirect.Write(c.text))
  {
    EchoedSnoc(writes, c);
  }

  lemma DeliveredSnoc(writes: seq<Chunk>, c: Chunk, streams: Streams)
    ensures Delivered(writes + [c], streams) == Delivered(writes, streams) + [Written(Bound(streams, c.stream), c.text)]
  {
    assert (writes + [c])[..|writes|] == writes;
  }

  /** Every non-blank write is echoed as `output`, and no blank one is. */
  lemma {:induction false} EchoedExactlyNonBlank(writes: seq<Chunk>, text: string)
    ensures Output(text) in Echoed(writes) <==> !IsBlank(text) && exists i :: 0 <= i < |writes| && writes[i].text == text
    decreases |writes|
  {
    if writes != [] {
      var init := writes[..|writes| - 1];
      EchoedExactlyNonBlank(init, text);
      if exists i :: 0 <= i < |writes| && writes[i].text == text {
        var i :| 0 <= i < |writes| && writes[i].text == text;
        if i < |init| {
          assert init[i].text == text;
        }
      }
      if exists i :: 0 <= i < |init| && init[i].text == text {
        var i :| 0 <= i < |init| && init[i].text == text;
        assert writes[i].text == text;
      }
    }
  }

  // ----- ModelDownloadWorker -----

  /** Where the download worker expects the weights: `<weights_dir>/<model_name>.pt`. */
  function WeightsFile(weightsDir: Path, modelName: string): Path {
    Join(weightsDir, modelName + ".pt")
  }

  /** The signals the download worker emits after the delegate returned or raised. */
  function DownloadVerdict(modelName: string, path: Path, present: bool, raised: Option<string>): seq<Signal> {
    match raised
    case Some(e) => [Output("An error occurred during download: " + e), DownloadComplete(false, e)]
    case None =>
      if present then
        [Output("Download of " + modelName + " complete and stored at " + Str(path) + "."),
         DownloadComplete(true, "Download successful.")]
      else
        [Output("Download failed. Model file not found."), DownloadComplete(false, "Download failed.")]
  }

  /** The verdict is one `output` line followed by the terminal `download_complete`, whose flag says the download succeeded. */
  lemma VerdictShape(modelName: string, path: Path, present: bool, raised: Option<string>)
    ensures var v := DownloadVerdict(modelName, path, present, raised);
      |v| == 2 && v[0].Output? && v[1].DownloadComplete? &&
      (v[1].success <==> raised.None? && present)
  {
  }

  /**
   * The delegate's writes while `sys.stdout` and `sys.stderr` are the two
   * redirects: each write goes through the redirect bound to its stream.
   * Returns the `output` signals raised and what reached the wrapped streams.
   */
  method Relay(writes: seq<Chunk>, outRedirect: StreamRedirect, errRedirect: StreamRedirect)
    returns (echoed: seq<Signal>, delivered: seq<Written>)
    ensures echoed == Echoed(writes)
    ensures delivered == Delivered(writes, Streams(outRedirect.oldStream, errRedirect.oldStream))
  {
    ghost var streams := Streams(outRedirect.oldStream, errRedirect.oldStream);
    echoed, delivered := [], [];
    var i := 0;
    while i < |writes|
      invariant 0 <= i <= |writes|
      invariant echoed == Echoed(writes[..i])
      invariant delivered == Delivered(writes[..i], streams)
    {
      var chunk := writes[i];
      var redirect := if chunk.stream == Stdout then outRedirect else errRedirect;
      var effect := redirect.Write(chunk.text);
      assert writes[..i + 1] == writes[..i] + [chunk];
      RelayStep(writes[..i], chunk, redirect);
      DeliveredSnoc(writes[..i], chunk, streams);
      echoed := echoed + Emitted(effect);
      delivered := delivered + [effect.forwarded];
      i := i + 1;
    }
    assert writes[..i] == writes;
  }

  /** Everything one run of the download worker leaves behind. */
  datatype DownloadTrace = DownloadTrace(log: seq<Signal>, files: set<Path>, streams: Streams, delivered: seq<Written>)

  class ModelDownloadWorker {
    const modelName: string

    constructor (modelName: string)
      ensures this.modelName == modelName
    {
      this.modelName := modelName;
    }

    /**
     * `run`. `weightsDir` is ultralytics' `settings["weights_dir"]`, `streams`
     * the standard streams on entry, and `delegate` what `YOLO(path)` printed,
     * left on disk and raised.
     */
    method Run(files: set<Path>, weightsDir: string, streams: Streams, delegate: DelegateRun)
      returns (t: DownloadTrace)
      ensures t.streams == streams
      ensures t.delivered == Delivered(delegate.writes, streams)
      ensures t.files == (if delegate.created then files + {WeightsFile(Parse(weightsDir), modelName)} else files)
      ensures t.log == [Output("Starting to download model " + modelName + "...")] + Echoed(delegate.writes) +
                       DownloadVerdict(modelName, WeightsFile(Parse(weightsDir), modelName),
                                       WeightsFile(Parse(weightsDir), modelName) in t.files, delegate.raised)
      ensures SingleTerminal(t.log)
      ensures Last(t.log).DownloadComplete?
      ensures Last(t.log).success <==> delegate.raised.None? && WeightsFile(Parse(weightsDir), modelName) in t.files
    {
      var oldStdout, oldStderr := streams.stdout, streams.stderr;
      var outRedirect, errRedirect := StreamRedirect(oldStdout), StreamRedirect(oldStderr);
      var sys := Streams(Redirected(outRedirect), Redirected(errRedirect));
      var log: seq<Signal> := [];

      var path := WeightsFile(Parse(weightsDir), modelName);
      log := log + [Output("Starting to download model " + modelName + "...")];
      // The delegate runs; everything it prints goes through the redirects.
      var echoed, delivered := Relay(delegate.writes, outRedirect, errRedirect);
      log := log + echoed;
      var after := if delegate.created then files + {path} else files;
      var verdict := DownloadVerdict(modelName, path, path in after, delegate.raised);
      VerdictShape(modelName, path, path in after, delegate.raised);
      log := log + verdict;
      // finally: the standard streams are restored
      sys := Streams(oldStdout, oldStderr);
      LogEndsWithVerdict([Output("Starting to download model " + modelName + "...")] + Echoed(delegate.writes), verdict);
      t := DownloadTrace(log, after, sys, delivered);
    }
  }

  lemma LogEndsWithVerdict(before: seq<Signal>, verdict: seq<Signal>)
    requires forall i :: 0 <= i < |before| ==> before[i].Output?
    requires |verdict| == 2 && verdict[0].Output? && IsTerminal(verdict[1])
    ensures SingleTerminal(before + verdict)
    ensures Last(before + verdict) == verdict[1]
  {
    var log := before + verdict;
    forall i | 0 <= i < |log| - 1
      ensures !IsTerminal(log[i])
    {
      if i < |before| {
        assert log[i] == before[i];
      }
    }
  }
}
