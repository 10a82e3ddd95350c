/**
 * The frame-collection loops of the video processor, `processVideoToAscii`
 * and `processVideoInChunks`. After the external FFmpeg engine has written
 * numbered frames `output_1.png, output_2.png, ...` into its virtual file
 * system, each loop reads them in order, converts each to ASCII and stops at
 * the first frame that cannot be read (the chunked loop also at `maxFrames`).
 *
 * The engine is foreign code. It is represented by what the loops observe
 * of it: whether it is loaded, whether writing the input video failed,
 * whether the probe run failed, and the frame store an extraction run leaves
 * behind (or its failure message) for a given rate, width and frame cap.
 */
module FramePipeline {
  import opened Results
  import opened Glyphs
  import opened Rasterizer

  /** The virtual file system after extraction: frame number i is `output_i.png`, decoded. */
  type FrameStore = map<nat, Image>

  /** What an extraction run leaves: a frame store, or the message it failed with. */
  datatype Extraction = Extracted(store: FrameStore) | ExtractFailed(message: string)

  /**
   * The FFmpeg engine as the loops observe it. `extract` is the extraction
   * run for a sampling rate, a target width and an optional frame cap.
   */
  datatype Engine = Engine(
    loaded: bool,
    writeError: Option<string>,
    probeError: Option<string>,
    extract: (real, nat, Option<int>) -> Extraction)

  /** Why a conversion failed. */
  datatype PipelineError =
    | NotLoaded
    | WriteFailed(cause: string)
    | ProbeFailed(cause: string)
    | ProcessFailed(cause: string)
    | CanvasFailed(error: CanvasError)

  const NotLoadedMessage: string := "FFmpeg is not loaded. Please ensure it's initialized before processing."
  const WritePrefix: string := "Failed to write video file: "
  const ProcessPrefix: string := "Failed to process video: "

  /**
   * The message a conversion rejects with. The engine and write failures are
   * wrapped in an `Error` whose message ends with the cause; the probe run's
   * error and the canvas's DOMException pass through unwrapped.
   */
  function ErrorMessage(e: PipelineError): (m: string)
    ensures e.NotLoaded? ==> m == NotLoadedMessage
    ensures e.WriteFailed? ==>
              |m| == |WritePrefix| + |e.cause| && m[..|WritePrefix|] == WritePrefix && m[|WritePrefix|..] == e.cause
    ensures e.ProbeFailed? ==> m == e.cause
    ensures e.ProcessFailed? ==>
              |m| == |ProcessPrefix| + |e.cause| && m[..|ProcessPrefix|] == ProcessPrefix && m[|ProcessPrefix|..] == e.cause
    ensures e.CanvasFailed? ==> m == "IndexSizeError"
  {
    match e
    case NotLoaded => NotLoadedMessage
    case WriteFailed(cause) =>
      assert (WritePrefix + cause)[..|WritePrefix|] == WritePrefix;
      WritePrefix + cause
    case ProbeFailed(cause) => cause
    case ProcessFailed(cause) =>
      assert (ProcessPrefix + cause)[..|ProcessPrefix|] == ProcessPrefix;
      ProcessPrefix + cause
    case CanvasFailed(_) => "IndexSizeError"
  }

  /** How many frames a batch of the chunked loop converts at most. */
  const BatchSize: nat := 10

  /** The frame cap of the chunked loop when its caller gives none. */
  const DefaultMaxFrames: int := 1000

  /** The chunked loop samples at `Math.min(frameRate, 15)`. */
  function ChunkedFrameRate(frameRate: real): (rate: real)
    ensures rate <= 15.0 && rate <= frameRate
    ensures rate == frameRate || rate == 15.0
  {
    if frameRate <= 15.0 then frameRate else 15.0
  }

  /** The plain loop replaces a rate of 20 or more by 20. */
  function PlainFrameRate(frameRate: real): (rate: real)
    ensures rate <= 20.0 && rate <= frameRate
    ensures rate == frameRate || rate == 20.0
    ensures frameRate < 20.0 ==> rate == frameRate
  {
    if frameRate >= 20.0 then 20.0 else frameRate
  }

  /** `readFile` of frame number `index`: absent frames make it throw. */
  function ReadFrame(store: FrameStore, index: nat): (r: Option<Image>)
    ensures r.Some? <==> index in store
    ensures r.Some? ==> r.value == store[index]
  {
    if index in store then Some(store[index]) else None
  }

  /** The numbered frames of the store from `start` on. */
  function FramesFrom(store: FrameStore, start: nat): set<nat> {
    set i | i in store && i >= start
  }

  /** The number of frames present without a gap from frame `start` on. */
  function RunLength(store: FrameStore, start: nat): nat
    decreases FramesFrom(store, start)
  {
    if start in store then
      assert start in FramesFrom(store, start) - FramesFrom(store, start + 1);
      1 + RunLength(store, start + 1)
    else 0
  }

  /** Frames start .. start + n - 1 are all present. */
  ghost predicate Present(store: FrameStore, start: nat, n: nat) {
    forall i :: start <= i < start + n ==> i in store
  }

  /** The run from `start` is present, and the frame right after it is missing. */
  lemma {:induction false} RunLengthIsRun(store: FrameStore, start: nat)
    ensures Present(store, start, RunLength(store, start))
    ensures start + RunLength(store, start) !in store
    decreases FramesFrom(store, start)
  {
    if start in store {
      assert start in FramesFrom(store, start) - FramesFrom(store, start + 1);
      RunLengthIsRun(store, start + 1);
    }
  }

  /** A run of n present frames is at most the run length. */
  lemma {:induction false} RunLengthAtLeast(store: FrameStore, start: nat, n: nat)
    requires Present(store, start, n)
    ensures n <= RunLength(store, start)
    decreases n
  {
    if n > 0 {
      assert start in store;
      RunLengthAtLeast(store, start + 1, n - 1);
    }
  }

  /** A present run followed by a missing frame is exactly the run length. */
  lemma RunLengthExactly(store: FrameStore, start: nat, n: nat)
    requires Present(store, start, n) && start + n !in store
    ensures RunLength(store, start) == n
  {
    RunLengthAtLeast(store, start, n);
    RunLengthIsRun(store, start);
  }

  /** Frames start .. start + n - 1 are all present and each has a canvas with pixels at `width`. */
  ghost predicate Drawn(store: FrameStore, width: nat, start: nat, n: nat) {
    Present(store, start, n) && forall i :: start <= i < start + n ==> Drawable(store[i], width)
  }

  /** The number of frames from `start` on, without a gap, that convert at `width` without an error. */
  function DrawnRun(store: FrameStore, width: nat, start: nat): (n: nat)
    ensures Drawn(store, width, start, n)
    ensures n <= RunLength(store, start)
    decreases FramesFrom(store, start)
  {
    if start in store && Drawable(store[start], width) then
      assert start in FramesFrom(store, start) - FramesFrom(store, start + 1);
      1 + DrawnRun(store, width, start + 1)
    else 0
  }

  /** A run of n frames that convert is at most the drawn run. */
  lemma {:induction false} DrawnRunAtLeast(store: FrameStore, width: nat, start: nat, n: nat)
    requires Drawn(store, width, start, n)
    ensures n <= DrawnRun(store, width, start)
    decreases n
  {
    if n > 0 {
      assert start in store && Drawable(store[start], width);
      DrawnRunAtLeast(store, width, start + 1, n - 1);
    }
  }

  /** A run of frames that convert, followed by a missing frame or one that does not, is exactly the drawn run. */
  lemma DrawnRunExactly(store: FrameStore, width: nat, start: nat, n: nat)
    requires Drawn(store, width, start, n)
    requires start + n !in store || !Drawable(store[start + n], width)
    ensures DrawnRun(store, width, start) == n
  {
    DrawnRunAtLeast(store, width, start, n);
  }

  /** The outcomes of converting frames start .. start + count - 1 at `width`, in order. */
  function Attempts(store: FrameStore, width: nat, start: nat, count: nat, level: DetailLevel)
    : (outcomes: seq<Result<string, CanvasError>>)
    requires Present(store, start, count)
    ensures |outcomes| == count
  {
    seq(count, j requires 0 <= j < count => ImageText(store[start + j], width, level))
  }

  /**
   * The texts of frames start .. start + count - 1 converted at `width`, in
   * order; frame i has `FrameHeight` rows of `width` glyphs and a line break each.
   */
  function ConvertedFrames(store: FrameStore, width: nat, start: nat, count: nat, level: DetailLevel)
    : (texts: seq<string>)
    requires Drawn(store, width, start, count)
    ensures |texts| == count
  {
    seq(count, j requires 0 <= j < count => ImageText(store[start + j], width, level).value)
  }

  /** Every converted frame is `FrameHeight` rows of `width` glyphs and a line break each. */
  lemma ConvertedFramesShape(store: FrameStore, width: nat, start: nat, count: nat, level: DetailLevel)
    requires Drawn(store, width, start, count)
    ensures forall j :: 0 <= j < count ==>
              |ConvertedFrames(store, width, start, count, level)[j]| == FrameHeight(store[start + j], width) * (width + 1)
  {
    forall j | 0 <= j < count
      ensures |ConvertedFrames(store, width, start, count, level)[j]| == FrameHeight(store[start + j], width) * (width + 1)
    {
      ImageTextLength(store[start + j], width, level);
    }
  }

  /** Converting one more frame appends its text. */
  lemma ConvertedFramesSnoc(store: FrameStore, width: nat, start: nat, count: nat, level: DetailLevel)
    requires Drawn(store, width, start, count + 1)
    ensures ConvertedFrames(store, width, start, count + 1, level)
            == ConvertedFrames(store, width, start, count, level) + [ImageText(store[start + count], width, level).value]
  {
  }

  /** Two adjacent runs of converted frames make one run. */
  lemma ConvertedFramesAppend(store: FrameStore, width: nat, start: nat, n: nat, m: nat, level: DetailLevel)
    requires Drawn(store, width, start, n) && Drawn(store, width, start + n, m)
    ensures Drawn(store, width, start, n + m)
    ensures ConvertedFrames(store, width, start, n, level) + ConvertedFrames(store, width, start + n, m, level)
            == ConvertedFrames(store, width, start, n + m, level)
  {
  }

  /**
   * `Promise.all` over a batch's conversions: every text in order when all of
   * them succeed, otherwise a failure.
   */
  function Gather(outcomes: seq<Result<string, CanvasError>>): (r: Result<seq<string>, CanvasError>)
    ensures r.Ok? <==> forall j :: 0 <= j < |outcomes| ==> outcomes[j].Ok?
    ensures r.Ok? ==> |r.value| == |outcomes| && forall j :: 0 <= j < |outcomes| ==> r.value[j] == outcomes[j].value
  {
    if outcomes == [] then Ok([])
    else if outcomes[0].Err? then Err(outcomes[0].error)
    else
      match Gather(outcomes[1..])
      case Err(e) =>
        assert !outcomes[1..][0].Ok? || exists j :: 0 <= j < |outcomes| - 1 && !outcomes[1..][j].Ok?;
        Err(e)
      case Ok(rest) => Ok([outcomes[0].value] + rest)
  }

  /** Attempt j of a run is the outcome of converting frame start + j. */
  lemma AttemptAt(store: FrameStore, width: nat, start: nat, n: nat, j: nat, level: DetailLevel)
    requires Present(store, start, n) && j < n
    ensures Attempts(store, width, start, n, level)[j] == ImageText(store[start + j], width, level)
  {
  }

  /**
   * A batch gathers without a failure exactly when all its frames convert,
   * and then to their converted texts.
   */
  lemma BatchConverted(store: FrameStore, width: nat, start: nat, n: nat, level: DetailLevel)
    requires Present(store, start, n)
    ensures Gather(Attempts(store, width, start, n, level)).Ok? <==> Drawn(store, width, start, n)
    ensures Gather(Attempts(store, width, start, n, level)).Ok? ==>
              Gather(Attempts(store, width, start, n, level)).value == ConvertedFrames(store, width, start, n, level)
  {
    var outcomes := Attempts(store, width, start, n, level);
    forall j | 0 <= j < n
      ensures outcomes[j].Ok? <==> Drawable(store[start + j], width)
    {
      AttemptAt(store, width, start, n, j, level);
    }
    if Gather(outcomes).Ok? {
      forall i | start <= i < start + n
        ensures Drawable(store[i], width)
      {
        assert outcomes[i - start].Ok?;
      }
    }
  }

  /** How many frames the chunked loop returns: as many as are present from frame 1, but at most maxFrames. */
  function FramesTaken(store: FrameStore, maxFrames: int): (k: nat)
    ensures k <= RunLength(store, 1)
    ensures maxFrames <= 0 ==> k == 0
    ensures maxFrames > 0 ==> k <= maxFrames && (k == maxFrames || k == RunLength(store, 1))
  {
    if maxFrames <= 0 then 0
    else if maxFrames <= RunLength(store, 1) then maxFrames
    else RunLength(store, 1)
  }

  /**
   * A non-empty batch read after a whole number of batches extends the
   * collected frames by the batch and the progress reports by the new total.
   */
  lemma BatchAppended(store: FrameStore, width: nat, done: nat, batch: seq<string>, level: DetailLevel)
    requires done % BatchSize == 0 && 0 < |batch| <= BatchSize
    requires Drawn(store, width, 1, done) && Drawn(store, width, done + 1, |batch|)
    requires batch == ConvertedFrames(store, width, done + 1, |batch|, level)
    ensures Drawn(store, width, 1, done + |batch|)
    ensures ConvertedFrames(store, width, 1, done, level) + batch == ConvertedFrames(store, width, 1, done + |batch|, level)
    ensures BatchProgress(done) + [done + |batch|] == BatchProgress(done + |batch|)
    ensures |batch| == BatchSize ==> (done + |batch|) % BatchSize == 0
  {
    ConvertedFramesAppend(store, width, 1, done, |batch|, level);
    BatchProgressStep(done, |batch|);
    WholeBatches(done);
  }

  /**
   * A batch after `done` frames that holds a frame that does not convert is the batch where the drawn run ends inside the frames taken.
   */
  lemma BatchFailed(store: FrameStore, width: nat, maxFrames: int, done: nat, n: nat)
    requires done % BatchSize == 0 && n <= BatchSize && done + n <= maxFrames
    requires Drawn(store, width, 1, done) && Present(store, done + 1, n) && !Drawn(store, width, done + 1, n)
    ensures DrawnRun(store, width, 1) < FramesTaken(store, maxFrames)
    ensures DrawnRun(store, width, 1) / BatchSize * BatchSize == done
  {
    var j :| done + 1 <= j < done + 1 + n && !Drawable(store[j], width);
    var d := DrawnRun(store, width, 1);
    DrawnRunAtLeast(store, width, 1, done);
    assert Present(store, 1, done + n);
    RunLengthAtLeast(store, 1, done + n);
    SameBatch(done, d);
  }

  /** A count within the batch after a whole number of batches rounds down to that number. */
  lemma SameBatch(done: nat, d: nat)
    requires done % BatchSize == 0 && done <= d < done + BatchSize
    ensures d / BatchSize * BatchSize == done
  {
  }

  /** Whole batches plus one more batch are whole batches. */
  lemma WholeBatches(n: nat)
    requires n % BatchSize == 0
    ensures (n + BatchSize) % BatchSize == 0
  {
  }

  /** A present run from frame 1 that ends at a missing frame or at the cap is what the chunked loop takes. */
  lemma FramesTakenAtStop(store: FrameStore, maxFrames: int, n: nat)
    requires Present(store, 1, n) && (n == 0 || n <= maxFrames)
    requires n + 1 !in store || n >= maxFrames
    ensures n == FramesTaken(store, maxFrames)
  {
    if n >= maxFrames && maxFrames > 0 {
      RunLengthAtLeast(store, 1, n);
    } else if n + 1 !in store {
      RunLengthExactly(store, 1, n);
    }
  }

  /**
   * The values the chunked loop reports through `onProgress` when it
   * collects `count` frames: the running total after each batch of ten.
   */
  function BatchProgress(count: nat): (reports: seq<nat>)
    ensures reports == [] <==> count == 0
    ensures reports != [] ==> reports[|reports| - 1] == count
    decreases count
  {
    if count == 0 then [] else BatchProgress((count - 1) / BatchSize * BatchSize) + [count]
  }

  /** A batch of s frames after n collected frames, n a whole number of batches, reports n + s. */
  lemma BatchProgressStep(n: nat, s: nat)
    requires n % BatchSize == 0 && 0 < s <= BatchSize
    ensures BatchProgress(n + s) == BatchProgress(n) + [n + s]
  {
    assert (n + s - 1) / BatchSize * BatchSize == n;
  }

  /**
   * The reports increase strictly, never exceed the frame count, all but the
   * last are whole batches, the last is the frame count, and there is one per
   * batch.
   */
  lemma {:induction false} BatchProgressShape(count: nat)
    ensures |BatchProgress(count)| == (count + BatchSize - 1) / BatchSize
    ensures forall i, j :: 0 <= i < j < |BatchProgress(count)| ==> BatchProgress(count)[i] < BatchProgress(count)[j]
    ensures forall i :: 0 <= i < |BatchProgress(count)| ==> 0 < BatchProgress(count)[i] <= count
    ensures forall i :: 0 <= i < |BatchProgress(count)| - 1 ==> BatchProgress(count)[i] == BatchSize * (i + 1)
    decreases count
  {
    if count > 0 {
      var n := (count - 1) / BatchSize * BatchSize;
      BatchProgressShape(n);
      assert n < count;
    }
  }

  /** The steps of `processVideoInChunks` before its read loop, and the frame store they leave. */
  function ChunkedSetup(engine: Engine, asciiWidth: nat, frameRate: real, maxFrames: int)
    : (r: Result<FrameStore, PipelineError>)
    ensures !engine.loaded ==> r == Err(NotLoaded)
    ensures r.Ok? ==> engine.loaded && engine.writeError.None? && engine.probeError.None?
    ensures r.Err? && r.error.ProbeFailed? ==> engine.writeError.None?
  {
    if !engine.loaded then Err(NotLoaded)
    else if engine.writeError.Some? then Err(WriteFailed(engine.writeError.value))
    else if engine.probeError.Some? then Err(ProbeFailed(engine.probeError.value))
    else match engine.extract(ChunkedFrameRate(frameRate), asciiWidth, Some(maxFrames))
         case ExtractFailed(message) => Err(ProcessFailed(message))
         case Extracted(store) => Ok(store)
  }

  /** The steps of `processVideoToAscii` before its read loop, and the frame store they leave; it runs no probe. */
  function PlainSetup(engine: Engine, asciiWidth: nat, frameRate: real): (r: Result<FrameStore, PipelineError>)
    ensures !engine.loaded ==> r == Err(NotLoaded)
    ensures r.Ok? ==> engine.loaded && engine.writeError.None?
    ensures r.Err? ==> !r.error.ProbeFailed? && !r.error.CanvasFailed?
  {
    if !engine.loaded then Err(NotLoaded)
    else if engine.writeError.Some? then Err(WriteFailed(engine.writeError.value))
    else match engine.extract(PlainFrameRate(frameRate), asciiWidth, None)
         case ExtractFailed(message) => Err(ProcessFailed(message))
         case Extracted(store) => Ok(store)
  }

  /**
   * `processVideoInChunks`: reads frames 1, 2, ... in batches of ten, stops
   * at the first missing frame or after maxFrames frames, and reports the
   * running total after each batch. A frame whose canvas is empty makes its
   * whole batch, and the conversion, reject.
   */
  method ProcessVideoInChunks(engine: Engine, asciiWidth: nat, frameRate: real, level: DetailLevel,
                              maxFrames: int := DefaultMaxFrames)
    returns (result: Result<seq<string>, string>, progress: seq<nat>)
    ensures !engine.loaded ==> result == Err(NotLoadedMessage) && progress == []
    ensures ChunkedSetup(engine, asciiWidth, frameRate, maxFrames).Err? ==>
              result == Err(ErrorMessage(ChunkedSetup(engine, asciiWidth, frameRate, maxFrames).error)) && progress == []
    ensures ChunkedSetup(engine, asciiWidth, frameRate, maxFrames).Ok? ==>
              var store := ChunkedSetup(engine, asciiWidth, frameRate, maxFrames).value;
              var k := FramesTaken(store, maxFrames);
              var d := DrawnRun(store, asciiWidth, 1);
              && (k <= d ==> result == Ok(ConvertedFrames(store, asciiWidth, 1, k, level)) && progress == BatchProgress(k))
              && (d < k ==> result == Err(ErrorMessage(CanvasFailed(IndexSizeError)))
                            && progress == BatchProgress(d / BatchSize * BatchSize))
  {
    if !engine.loaded {
      return Err(ErrorMessage(NotLoaded)), [];
    }
    if engine.writeError.Some? {
      return Err(ErrorMessage(WriteFailed(engine.writeError.value))), [];
    }
    var effectiveFrameRate := ChunkedFrameRate(frameRate);
    if engine.probeError.Some? {
      return Err(ErrorMessage(ProbeFailed(engine.probeError.value))), [];
    }
    var extraction := engine.extract(effectiveFrameRate, asciiWidth, Some(maxFrames));
    if extraction.ExtractFailed? {
      return Err(ErrorMessage(ProcessFailed(extraction.message))), [];
    }
    var frames;
    frames, progress := ReadInBatches(extraction.store, asciiWidth, maxFrames, level);
    if frames.Err? {
      return Err(ErrorMessage(CanvasFailed(frames.error))), progress;
    }
    return Ok(frames.value), progress;
  }

  /**
   * The read loop of `processVideoInChunks`: batches of ten frames from
   * frame 1 on, until a batch comes back empty, maxFrames frames are read,
   * or a batch holds a frame that does not convert.
   */
  method ReadInBatches(store: FrameStore, width: nat, maxFrames: int, level: DetailLevel)
    returns (result: Result<seq<string>, CanvasError>, progress: seq<nat>)
    ensures var k := FramesTaken(store, maxFrames);
            var d := DrawnRun(store, width, 1);
            && (result.Ok? <==> k <= d)
            && (k <= d ==> result.value == ConvertedFrames(store, width, 1, k, level) && progress == BatchProgress(k))
            && (d < k ==> progress == BatchProgress(d / BatchSize * BatchSize))
  {
    var asciiFrames, done, failed;
    asciiFrames, progress, done, failed := CollectBatches(store, width, maxFrames, level);
    if failed {
      return Err(IndexSizeError), progress;
    }
    DrawnRunAtLeast(store, width, 1, done);
    return Ok(asciiFrames), progress;
  }

  /**
   * The state of the batch loop once `done` frames are collected: they all
   * convert, `asciiFrames` holds their text, `progress` one report per batch,
   * and unless `done` is a whole number of batches the loop is about to stop.
   */
  ghost predicate Collected(store: FrameStore, width: nat, maxFrames: int, level: DetailLevel,
                            done: nat, asciiFrames: seq<string>, progress: seq<nat>)
  {
    && Drawn(store, width, 1, done)
    && asciiFrames == ConvertedFrames(store, width, 1, done, level)
    && progress == BatchProgress(done)
    && (done % BatchSize == 0 || done + 1 !in store || done >= maxFrames)
  }

  /**
   * The batch loop itself: `done` frames are collected when it stops, either
   * because a batch came back empty or the cap was reached, so that `done` is
   * the number of frames taken, or because a batch `failed`, the one after
   * the first `done` frames.
   */
  method CollectBatches(store: FrameStore, width: nat, maxFrames: int, level: DetailLevel)
    returns (asciiFrames: seq<string>, progress: seq<nat>, done: nat, failed: bool)
    ensures Drawn(store, width, 1, done)
    ensures asciiFrames == ConvertedFrames(store, width, 1, done, level) && progress == BatchProgress(done)
    ensures !failed ==> done == FramesTaken(store, maxFrames)
    ensures failed ==>
              DrawnRun(store, width, 1) < FramesTaken(store, maxFrames)
              && DrawnRun(store, width, 1) / BatchSize * BatchSize == done
  {
    asciiFrames := [];
    progress := [];
    var frameIndex: nat := 1;
    while frameIndex <= maxFrames
      invariant 1 <= frameIndex && (frameIndex == 1 || frameIndex <= maxFrames + 1)
      invariant Collected(store, width, maxFrames, level, frameIndex - 1, asciiFrames, progress)
      decreases maxFrames - frameIndex
    {
      var next, frames, reports, batchFailed := NextBatch(store, width, maxFrames, level, frameIndex, asciiFrames, progress);
      if batchFailed {
        return asciiFrames, progress, frameIndex - 1, true;
      }
      if next == frameIndex {
        break;
      }
      frameIndex, asciiFrames, progress := next, frames, reports;
    }
    FramesTakenAtStop(store, maxFrames, frameIndex - 1);
    return asciiFrames, progress, frameIndex - 1, false;
  }

  /**
   * One pass of `while (frameIndex <= maxFrames)` in `processVideoInChunks`:
   * reads the batch from `frameIndex` on and says where the loop goes on
   * from; an empty batch ends the loop, a failed one rejects, and a converted
   * one is appended to the frames and its new total to the reports.
   */
  method NextBatch(store: FrameStore, width: nat, maxFrames: int, level: DetailLevel,
                   frameIndex: nat, asciiFrames: seq<string>, progress: seq<nat>)
    returns (next: nat, frames: seq<string>, reports: seq<nat>, failed: bool)
    requires 1 <= frameIndex <= maxFrames
    requires Collected(store, width, maxFrames, level, frameIndex - 1, asciiFrames, progress)
    ensures frameIndex <= next <= maxFrames + 1
    ensures failed ==>
              DrawnRun(store, width, 1) < FramesTaken(store, maxFrames)
              && DrawnRun(store, width, 1) / BatchSize * BatchSize == frameIndex - 1
    ensures !failed && next == frameIndex ==> frameIndex !in store
    ensures !failed ==> Collected(store, width, maxFrames, level, next - 1, frames, reports)
  {
    var batch;
    batch, next := ReadBatch(store, width, frameIndex, maxFrames, level);
    if next == frameIndex {
      return next, asciiFrames, progress, false;
    }
    var done := frameIndex - 1;
    assert frameIndex in store;
    if batch.Err? {
      BatchFailed(store, width, maxFrames, done, next - frameIndex);
      return next, asciiFrames, progress, true;
    }
    BatchCollected(store, width, maxFrames, level, frameIndex, next, asciiFrames, progress, batch.value);
    frames := asciiFrames + batch.value;
    var total: nat := |frames|;
    reports := progress + [total];
    failed := false;
  }

  /** A converted batch from `frameIndex` up to `next` leaves the loop in its collected state again. */
  lemma BatchCollected(store: FrameStore, width: nat, maxFrames: int, level: DetailLevel,
                       frameIndex: nat, next: nat, asciiFrames: seq<string>, progress: seq<nat>, batch: seq<string>)
    requires 1 <= frameIndex <= maxFrames && frameIndex in store
    requires Collected(store, width, maxFrames, level, frameIndex - 1, asciiFrames, progress)
    requires frameIndex < next <= frameIndex + BatchSize && next <= maxFrames + 1
    requires next - frameIndex < BatchSize ==> next !in store || next > maxFrames
    requires Drawn(store, width, frameIndex, next - frameIndex)
    requires batch == ConvertedFrames(store, width, frameIndex, next - frameIndex, level)
    ensures Collected(store, width, maxFrames, level, next - 1, asciiFrames + batch, progress + [|asciiFrames + batch|])
  {
    BatchAppended(store, width, frameIndex - 1, batch, level);
  }

  /**
   * One pass of the batch loop of `processVideoInChunks`: it reads up to ten
   * consecutive frames from `frameIndex` on and starts converting each,
   * stopping early at a missing frame or after frame `maxFrames`, then waits
   * for all the conversions. `next` is the frame number the loop goes on from.
   */
  method ReadBatch(store: FrameStore, width: nat, frameIndex: nat, maxFrames: int, level: DetailLevel)
    returns (batch: Result<seq<string>, CanvasError>, next: nat)
    requires frameIndex <= maxFrames
    ensures frameIndex <= next <= frameIndex + BatchSize && next <= maxFrames + 1
    ensures Present(store, frameIndex, next - frameIndex)
    ensures next - frameIndex < BatchSize ==> next !in store || next > maxFrames
    ensures batch.Ok? <==> Drawn(store, width, frameIndex, next - frameIndex)
    ensures batch.Ok? ==> batch.value == ConvertedFrames(store, width, frameIndex, next - frameIndex, level)
  {
    var pending := [];
    next := frameIndex;
    var i := 0;
    while i < BatchSize && next <= maxFrames
      invariant 0 <= i <= BatchSize && next == frameIndex + i <= maxFrames + 1 && |pending| == i
      invariant Present(store, frameIndex, i)
      invariant pending == Attempts(store, width, frameIndex, i, level)
    {
      var frameData := ReadFrame(store, next);
      if frameData.None? {
        break;
      }
      var outcome := ImageDataToAscii(frameData.value, width, level);
      pending := pending + [outcome];
      i, next := i + 1, next + 1;
    }
    batch := Gather(pending);
    BatchConverted(store, width, frameIndex, i, level);
  }

  /**
   * `processVideoToAscii`: reads frames 1, 2, ... until one is missing,
   * reporting the number of each frame after converting it. A frame whose
   * canvas is empty makes the conversion reject.
   */
  method ProcessVideoToAscii(engine: Engine, asciiWidth: nat, frameRate: real, level: DetailLevel)
    returns (result: Result<seq<string>, string>, progress: seq<nat>)
    ensures !engine.loaded ==> result == Err(NotLoadedMessage) && progress == []
    ensures PlainSetup(engine, asciiWidth, frameRate).Err? ==>
              result == Err(ErrorMessage(PlainSetup(engine, asciiWidth, frameRate).error)) && progress == []
    ensures PlainSetup(engine, asciiWidth, frameRate).Ok? ==>
              var store := PlainSetup(engine, asciiWidth, frameRate).value;
              var k := RunLength(store, 1);
              var d := DrawnRun(store, asciiWidth, 1);
              && progress == seq(d, j => j + 1)
              && (d == k ==> result == Ok(ConvertedFrames(store, asciiWidth, 1, d, level)))
              && (d < k ==> result == Err(ErrorMessage(CanvasFailed(IndexSizeError))))
  {
    if !engine.loaded {
      return Err(ErrorMessage(NotLoaded)), [];
    }
    if engine.writeError.Some? {
      return Err(ErrorMessage(WriteFailed(engine.writeError.value))), [];
    }
    var rate := PlainFrameRate(frameRate);
    var extraction := engine.extract(rate, asciiWidth, None);
    if extraction.ExtractFailed? {
      return Err(ErrorMessage(ProcessFailed(extraction.message))), [];
    }
    var frames;
    frames, progress := ReadFrames(extraction.store, asciiWidth, level);
    if frames.Err? {
      return Err(ErrorMessage(CanvasFailed(frames.error))), progress;
    }
    return Ok(frames.value), progress;
  }

  /**
   * The read loop of `processVideoToAscii`: converts frames 1, 2, ... until
   * one is missing, or rejects at the first one that does not convert.
   */
  method ReadFrames(store: FrameStore, width: nat, level: DetailLevel)
    returns (result: Result<seq<string>, CanvasError>, progress: seq<nat>)
    ensures var k := RunLength(store, 1);
            var d := DrawnRun(store, width, 1);
            && progress == seq(d, j => j + 1)
            && (result.Ok? <==> d == k)
            && (d == k ==> result.value == ConvertedFrames(store, width, 1, d, level))
  {
    var asciiFrames: seq<string> := [];
    progress := [];
    var frameIndex: nat := 1;
    while true
      invariant frameIndex >= 1 && ReadSoFar(store, width, level, frameIndex - 1, asciiFrames, progress)
      decreases FramesFrom(store, frameIndex)
    {
      var frameData := ReadFrame(store, frameIndex);
      if frameData.None? {
        break;
      }
      var converted := ImageDataToAscii(frameData.value, width, level);
      if converted.Err? {
        DrawnRunExactly(store, width, 1, frameIndex - 1);
        RunLengthAtLeast(store, 1, frameIndex);
        return Err(converted.error), progress;
      }
      FrameRead(store, width, level, frameIndex, asciiFrames, progress);
      asciiFrames := asciiFrames + [converted.value];
      progress := progress + [frameIndex];
      frameIndex := frameIndex + 1;
    }
    RunLengthExactly(store, 1, frameIndex - 1);
    DrawnRunExactly(store, width, 1, frameIndex - 1);
    return Ok(asciiFrames), progress;
  }

  /**
   * The state of the frame-by-frame loop once frames 1 .. done are read:
   * they all convert, `asciiFrames` holds their text and `progress` has
   * reported each frame number in turn.
   */
  ghost predicate ReadSoFar(store: FrameStore, width: nat, level: DetailLevel,
                            done: nat, asciiFrames: seq<string>, progress: seq<nat>)
  {
    && Drawn(store, width, 1, done)
    && asciiFrames == ConvertedFrames(store, width, 1, done, level)
    && progress == seq(done, j => j + 1)
  }

  /** Reading and converting frame `frameIndex` moves the loop on by one frame and leaves fewer frames ahead. */
  lemma FrameRead(store: FrameStore, width: nat, level: DetailLevel,
                  frameIndex: nat, asciiFrames: seq<string>, progress: seq<nat>)
    requires frameIndex >= 1 && ReadSoFar(store, width, level, frameIndex - 1, asciiFrames, progress)
    requires frameIndex in store && Drawable(store[frameIndex], width)
    ensures ReadSoFar(store, width, level, frameIndex,
                      asciiFrames + [ImageText(store[frameIndex], width, level).value], progress + [frameIndex])
    ensures FramesFrom(store, frameIndex + 1) < FramesFrom(store, frameIndex)
  {
    ConvertedFramesSnoc(store, width, 1, frameIndex - 1, level);
    assert frameIndex in FramesFrom(store, frameIndex) - FramesFrom(store, frameIndex + 1);
  }
}
