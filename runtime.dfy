/**
 * The state `process_diffusers` changes in place: the shared progress state
 * the step callback updates, the compiled-model record the OpenVINO backend
 * keeps between runs, and the fields of the processing job (its hires flag,
 * its init images and its list of recorded operations).
 */
module DiffusersRuntime {
  import opened Wrappers
  import opened PyLists
  import opened PipelineArgs
  import opened DiffusersStages

  /** Progress and stop requests, shared with the user interface. */
  class SharedState {
    var samplingStep: int
    var samplingSteps: int
    var interrupted: bool
    var skipped: bool
    var currentLatent: Value

    constructor (interrupted: bool, skipped: bool)
      ensures samplingStep == 0 && samplingSteps == 0 && currentLatent == NoneValue
      ensures this.interrupted == interrupted && this.skipped == skipped
    {
      samplingStep := 0;
      samplingSteps := 0;
      this.interrupted := interrupted;
      this.skipped := skipped;
      currentLatent := NoneValue;
    }

    /** `diffusers_callback`, called by the pipeline after every step: it
        counts the step, sets the total (including the hires steps on a hires
        pass), publishes the latents, and raises AssertionError (`stop`) when
        the run is interrupted or skipped. */
    method StepCallback(steps: int, isHrPass: bool, hrSecondPassSteps: int, latents: Value) returns (stop: bool)
      modifies this
      ensures samplingStep == old(samplingStep) + 1
      ensures samplingSteps == steps + (if isHrPass then hrSecondPassSteps else 0)
      ensures currentLatent == latents
      ensures interrupted == old(interrupted) && skipped == old(skipped)
      ensures stop == (interrupted || skipped)
    {
      samplingStep := samplingStep + 1;
      samplingSteps := steps;
      if isHrPass {
        samplingSteps := samplingSteps + hrSecondPassSteps;
      }
      currentLatent := latents;
      stop := interrupted || skipped;
    }
  }

  /** A pipeline's denoising loop as far as the callback sees it: up to `n`
      steps, ending at the first step whose callback raises. Each call counts
      exactly one step, so an unstopped run counts all `n` and a stopped one
      only the first. */
  method DenoiseSteps(st: SharedState, n: nat, steps: int, isHrPass: bool, hrSecondPassSteps: int, latents: Value)
    returns (calls: nat)
    modifies st
    ensures calls == (if n > 0 && (st.interrupted || st.skipped) then 1 else n)
    ensures st.samplingStep == old(st.samplingStep) + calls
    ensures st.interrupted == old(st.interrupted) && st.skipped == old(st.skipped)
  {
    calls := 0;
    while calls < n
      invariant calls <= n
      invariant st.samplingStep == old(st.samplingStep) + calls
      invariant st.interrupted == old(st.interrupted) && st.skipped == old(st.skipped)
      invariant calls > 0 ==> !(st.interrupted || st.skipped)
    {
      var stop := st.StepCallback(steps, isHrPass, hrSecondPassSteps, latents);
      calls := calls + 1;
      if stop {
        return;
      }
    }
  }

  /** The size and batch the OpenVINO-compiled model was built for. */
  class CompiledModelState {
    var firstPass: bool
    var height: int
    var width: int
    var batchSize: int

    constructor ()
      ensures firstPass && height == 0 && width == 0 && batchSize == 0
    {
      firstPass := true;
      height := 0;
      width := 0;
      batchSize := 0;
    }
  }

  /** The process-wide record of the compiled model, and the weight
      unload/reload operations asked of the model loader, in order. */
  class Runtime {
    var compiledModelState: CompiledModelState?
    var weightOps: seq<string>

    constructor (state: CompiledModelState?)
      ensures compiledModelState == state && weightOps == []
    {
      compiledModelState := state;
      weightOps := [];
    }
  }

  datatype CompileOptions = CompileOptions(cudaCompile: bool, backend: string)

  /** Only the OpenVINO backend tracks shapes; other backends and a disabled
      compiler do nothing. */
  predicate TracksShapes(opts: CompileOptions) {
    opts.cudaCompile && opts.backend != "none" && opts.backend == "openvino_fx"
  }

  /** The size the model is compiled for: the hires target on the hires pass. */
  function CompileHeight(s: Settings, hires: bool): int {
    if hires then s.hrUpscaleToY else s.height
  }

  function CompileWidth(s: Settings, hires: bool): int {
    if hires then s.hrUpscaleToX else s.width
  }

  /** The weights are reloaded when there is no record yet, or when a record
      past its first pass was made for another size or batch. */
  predicate NeedsRecompile(present: bool, firstPass: bool, height: int, width: int, batch: int, h: int, w: int, b: int) {
    !present || (!firstPass && (height != h || width != w || batch != b))
  }

  function ReloadOps(refinerEnabled: bool): seq<string> {
    ["unload model", "reload model"] + (if refinerEnabled then ["unload refiner", "reload refiner"] else [])
  }

  /** `recompile_model`. The loader is foreign: `reloaded` is the record the
      reload leaves in place (possibly still none, in which case writing the
      size raises AttributeError). After it, the record holds the compiled
      size and batch and is past its first pass. */
  method RecompileModel(rt: Runtime, opts: CompileOptions, s: Settings, hires: bool, refinerEnabled: bool, reloaded: CompiledModelState?)
    returns (err: Option<PyError>)
    modifies rt, rt.compiledModelState, reloaded
    ensures !TracksShapes(opts) ==>
              && err.None? && rt.weightOps == old(rt.weightOps)
              && rt.compiledModelState == old(rt.compiledModelState)
              && (rt.compiledModelState != null ==> unchanged(rt.compiledModelState))
    ensures TracksShapes(opts) ==>
              var h, w := CompileHeight(s, hires), CompileWidth(s, hires);
              var need := old(rt.compiledModelState) == null ||
                          NeedsRecompile(true, old(rt.compiledModelState.firstPass), old(rt.compiledModelState.height),
                                         old(rt.compiledModelState.width), old(rt.compiledModelState.batchSize), h, w, s.batchSize);
              && rt.weightOps == old(rt.weightOps) + (if need then ReloadOps(refinerEnabled) else [])
              && rt.compiledModelState == (if need then reloaded else old(rt.compiledModelState))
              && (err.Some? <==> rt.compiledModelState == null)
              && (err.Some? ==> err.value == AttributeError)
              && (rt.compiledModelState != null ==>
                    var c := rt.compiledModelState;
                    !c.firstPass && c.height == h && c.width == w && c.batchSize == s.batchSize)
  {
    if !TracksShapes(opts) {
      return None;
    }
    var h, w := CompileHeight(s, hires), CompileWidth(s, hires);
    var c := rt.compiledModelState;
    if c == null || (!c.firstPass && (c.height != h || c.width != w || c.batchSize != s.batchSize)) {
      rt.weightOps := rt.weightOps + ["unload model", "reload model"];
      if refinerEnabled {
        rt.weightOps := rt.weightOps + ["unload refiner", "reload refiner"];
      }
      rt.compiledModelState := reloaded;
    }
    c := rt.compiledModelState;
    if c == null {
      return Some(AttributeError);
    }
    c.height := h;
    c.width := w;
    c.batchSize := s.batchSize;
    c.firstPass := false;
    return None;
  }

  /** Once a recompile has succeeded, repeating it for the same size and
      batch reloads nothing: the second call leaves `weightOps` as the first
      left it. */
  method RecompileTwice(rt: Runtime, opts: CompileOptions, s: Settings, hires: bool, refinerEnabled: bool, reloaded: CompiledModelState?)
    returns (first: Option<PyError>, second: Option<PyError>, opsAfterFirst: seq<string>)
    modifies rt, rt.compiledModelState, reloaded
    ensures first.None? ==> second.None? && rt.weightOps == opsAfterFirst
  {
    first := RecompileModel(rt, opts, s, hires, refinerEnabled, reloaded);
    opsAfterFirst := rt.weightOps;
    second := RecompileModel(rt, opts, s, hires, refinerEnabled, reloaded);
  }

  /** Regrouping appends, which the record of stages needs at each exit. */
  lemma AppendThree<T>(a: seq<T>, b: seq<T>, c: seq<T>, d: seq<T>)
    ensures a + b + c + d == a + (b + c + d)
  {
  }

  /** The processing job, as far as `process_diffusers` changes it. */
  class Processing {
    const settings: Settings
    var isHrPass: bool
    var initImages: PyList<Value>
    var ops: seq<string>

    constructor (settings: Settings, isHrPass: bool, initImages: PyList<Value>)
      ensures this.settings == settings && this.isHrPass == isHrPass && this.initImages == initImages && ops == []
    {
      this.settings := settings;
      this.isHrPass := isHrPass;
      this.initImages := initImages;
      ops := [];
    }

    /** The hires flag is set when hires is requested and otherwise kept. */
    method MarkHrPass()
      modifies this
      ensures isHrPass == (old(isHrPass) || HrRequested(settings, |initImages.items|))
      ensures initImages == old(initImages) && ops == old(ops)
    {
      if HrRequested(settings, |initImages.items|) {
        isHrPass := true;
      }
    }

    /** A job with init images gets one per prompt, by repeating the last
      image; one without keeps none. */
    method PadInitImages(promptCount: int)
      modifies initImages
      ensures |old(initImages.items)| > 0 ==> initImages.items == Padded(old(initImages.items), promptCount)
      ensures |old(initImages.items)| == 0 ==> initImages.items == []
    {
      if |initImages.items| > 0 {
        var _ := PadTo(initImages, promptCount);
      }
    }

    /** The hires stage's appends to `ops`. */
    method RecordHires(sizeChanged: bool, secondPass: bool)
      modifies this
      ensures ops == old(ops) + HiresOps(isHrPass, sizeChanged, secondPass)
      ensures isHrPass == old(isHrPass) && initImages == old(initImages)
    {
      if isHrPass && sizeChanged {
        ops := ops + ["upscale"];
        if secondPass {
          ops := ops + ["hires"];
        }
      }
    }

    /** The appends to `ops` along `process_diffusers`, with its early
      returns. `stoppedBeforeBase`, `stoppedAfterBase` and
      `stoppedBeforeRefiner` are the stop requests seen at its three checks;
      `sizeChanged` and `secondPass` are the hires conditions. */
    method RecordStages(
      task: Task, stoppedBeforeBase: bool, stoppedAfterBase: bool,
      sizeChanged: bool, secondPass: bool, refinerEnabled: bool, stoppedBeforeRefiner: bool)
      modifies this
      ensures ops == old(ops) + StageOps(task, stoppedBeforeBase, stoppedAfterBase, isHrPass, sizeChanged, secondPass,
                                         refinerEnabled, stoppedBeforeRefiner)
      ensures isHrPass == old(isHrPass) && initImages == old(initImages)
    {
      ghost var start := ops;
      ops := ops + TaskOp(task);
      if stoppedBeforeBase {
        return;
      }
      if stoppedAfterBase {
        return;
      }
      RecordHires(sizeChanged, secondPass);
      ghost var afterHires := ops;
      if refinerEnabled {
        if stoppedBeforeRefiner {
          assert ops == afterHires + [];
          AppendThree(start, TaskOp(task), HiresOps(isHrPass, sizeChanged, secondPass), []);
          return;
        }
        ops := ops + ["refine"];
      }
      AppendThree(start, TaskOp(task), HiresOps(isHrPass, sizeChanged, secondPass), RefineOps(refinerEnabled, stoppedBeforeRefiner));
    }
  }
}
