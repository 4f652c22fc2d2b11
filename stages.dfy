/**
 * The decisions `process_diffusers` takes before and between its pipeline
 * calls: whether there is a hires pass and a refiner pass, which part of the
 * denoising schedule the base pass runs, task-specific arguments (with image sizes
 * rounded up to a multiple of 8), which sampler to create, what `vae_decode`
 * does with its input, and the operations recorded in `p.ops`.
 */
module DiffusersStages {
  import opened Wrappers
  import opened PyLists
  import opened PipelineArgs

  /** The processing-job settings these decisions read. */
  datatype Settings = Settings(
    enableHr: bool,
    hrUpscaler: string,
    denoisingStrength: real,
    refinerSteps: int,
    refinerStart: real,
    height: int,
    width: int,
    hrUpscaleToX: int,
    hrUpscaleToY: int,
    batchSize: int,
    steps: int,
    hrSecondPassSteps: int,
    hrForce: bool)

  /** What the loaded pipeline does: its diffusers task type. */
  datatype Task = TextToImage | ImageToImage | Inpainting | OtherTask

  /** Hires is requested for a job without init images that has an upscaler
      and a positive denoising strength; the job's hires flag is then set,
      and otherwise left as it was. */
  predicate HrRequested(s: Settings, initImageCount: nat) {
    s.enableHr && s.hrUpscaler != "None" && s.denoisingStrength > 0.0 && initImageCount == 0
  }

  predicate InOpenUnit(x: real) {
    0.0 < x < 1.0
  }

  /** There is a refiner pass when hires is enabled, the refiner has steps,
      starts strictly inside the schedule, and a refiner model is loaded. */
  predicate RefinerEnabled(s: Settings, refinerLoaded: bool) {
    s.enableHr && s.refinerSteps > 0 && InOpenUnit(s.refinerStart) && refinerLoaded
  }

  predicate IsImg2Img(task: Task) {
    task == ImageToImage || task == Inpainting
  }

  /** The base pass stops where the refiner starts: text-to-image with a
      refiner and no hires pass. */
  predicate UseRefinerStart(s: Settings, refinerLoaded: bool, isHrPass: bool, task: Task) {
    RefinerEnabled(s, refinerLoaded) && !isHrPass && !IsImg2Img(task) && InOpenUnit(s.refinerStart)
  }

  /** An image-to-image base pass starts where the refiner would. */
  predicate UseDenoiseStart(s: Settings, task: Task) {
    IsImg2Img(task) && InOpenUnit(s.refinerStart)
  }

  /** The `denoising_start` / `denoising_end` pair of the base pass. */
  datatype Window = Window(start: Option<real>, end: Option<real>)

  function DenoisingWindow(s: Settings, refinerLoaded: bool, isHrPass: bool, task: Task): Window {
    var urs := UseRefinerStart(s, refinerLoaded, isHrPass, task);
    var uds := UseDenoiseStart(s, task);
    Window(
      if urs then Some(0.0) else if uds then Some(s.refinerStart) else None,
      if urs then Some(s.refinerStart) else if uds then Some(1.0) else None)
  }

  /** At most one of the two windows applies. */
  lemma WindowsExclusive(s: Settings, refinerLoaded: bool, isHrPass: bool, task: Task)
    ensures !(UseRefinerStart(s, refinerLoaded, isHrPass, task) && UseDenoiseStart(s, task))
  {
  }

  /** The window is one of three: (0, refiner start) when the base pass
      stops where the refiner starts, (refiner start, 1) when an
      image-to-image pass starts there, and (None, None) otherwise. */
  lemma DenoisingWindowCases(s: Settings, refinerLoaded: bool, isHrPass: bool, task: Task)
    ensures var w := DenoisingWindow(s, refinerLoaded, isHrPass, task);
            && (UseRefinerStart(s, refinerLoaded, isHrPass, task) ==> w == Window(Some(0.0), Some(s.refinerStart)))
            && (UseDenoiseStart(s, task) ==> w == Window(Some(s.refinerStart), Some(1.0)))
            && (!UseRefinerStart(s, refinerLoaded, isHrPass, task) && !UseDenoiseStart(s, task) ==> w == Window(None, None))
  {
    WindowsExclusive(s, refinerLoaded, isHrPass, task);
  }

  /** Either both ends are set or neither is; when set they bound a
      non-empty part of the schedule, and the refiner start is one of the two
      ends. No refiner start strictly inside the schedule means no window. */
  lemma WindowWellFormed(s: Settings, refinerLoaded: bool, isHrPass: bool, task: Task)
    ensures var w := DenoisingWindow(s, refinerLoaded, isHrPass, task);
            && (w.start.Some? <==> w.end.Some?)
            && (w.start.Some? <==> UseRefinerStart(s, refinerLoaded, isHrPass, task) || UseDenoiseStart(s, task))
            && (w.start.Some? ==> 0.0 <= w.start.value < w.end.value <= 1.0)
            && (w.start.Some? ==> w.start.value == s.refinerStart || w.end.value == s.refinerStart)
            && (!InOpenUnit(s.refinerStart) ==> w.start.None?)
  {
  }

  /** `8 * ceil(x / 8)`: the least multiple of 8 that is at least `x`. */
  function RoundUp8(x: int): (r: int)
    ensures r % 8 == 0
    ensures x <= r < x + 8
  {
    (x + 7) / 8 * 8
  }

  /** It is the only multiple of 8 in `[x, x + 8)`, so sizes that are already
      multiples of 8 are kept. */
  lemma RoundUp8Unique(x: int, m: int)
    requires m % 8 == 0 && x <= m < x + 8
    ensures m == RoundUp8(x)
  {
    var r := RoundUp8(x);
    assert (m - r) % 8 == 0;
  }

  lemma RoundUp8KeepsMultiples(x: int)
    requires x % 8 == 0
    ensures RoundUp8(x) == x
  {
    RoundUp8Unique(x, x);
  }

  /** The keyword arguments of the base pass that depend on the pipeline's task type. */
  function TaskKwargs(task: Task, s: Settings, initImages: Value, mask: Value): map<string, Value> {
    match task
    case TextToImage => map["height" := Int(RoundUp8(s.height)), "width" := Int(RoundUp8(s.width))]
    case ImageToImage => map["image" := initImages, "strength" := Real(s.denoisingStrength)]
    case Inpainting =>
      map["image" := initImages, "mask_image" := mask, "strength" := Real(s.denoisingStrength),
          "height" := Int(RoundUp8(s.height)), "width" := Int(RoundUp8(s.width))]
    case OtherTask => map[]
  }

  /** Sizes go to the pipeline as multiples of 8, and images exactly for the
      image-to-image tasks. */
  lemma TaskKwargsShape(task: Task, s: Settings, initImages: Value, mask: Value)
    ensures var k := TaskKwargs(task, s, initImages, mask);
            && ("height" in k <==> task == TextToImage || task == Inpainting)
            && ("height" in k ==> k["height"].Int? && k["height"].i % 8 == 0 && s.height <= k["height"].i < s.height + 8)
            && ("width" in k ==> k["width"].Int? && k["width"].i % 8 == 0 && s.width <= k["width"].i < s.width + 8)
            && ("image" in k <==> IsImg2Img(task))
            && ("mask_image" in k <==> task == Inpainting)
  {
  }

  /** The operation `p.ops` records for the pipeline's task type, if any. */
  function TaskOp(task: Task): seq<string> {
    match task
    case TextToImage => ["txt2img"]
    case ImageToImage => ["img2img"]
    case Inpainting => ["inpaint"]
    case OtherTask => []
  }

  /** The keyword arguments of the base pass, before `set_pipeline_args`
      filters them. The step count, eta, guidance rescale and clip skip come
      from computations and options outside this model. */
  function BaseKwargs(
    s: Settings, refinerLoaded: bool, isHrPass: bool, task: Task, hasVae: bool,
    baseSteps: Value, eta: Value, guidanceRescale: Value, clipSkip: Value,
    initImages: Value, mask: Value): map<string, Value>
  {
    var w := DenoisingWindow(s, refinerLoaded, isHrPass, task);
    map[
      "num_inference_steps" := baseSteps,
      "eta" := eta,
      "guidance_rescale" := guidanceRescale,
      "denoising_start" := if w.start.Some? then Real(w.start.value) else NoneValue,
      "denoising_end" := if w.end.Some? then Real(w.end.value) else NoneValue,
      "output_type" := Str(if hasVae then "latent" else "np"),
      "clip_skip" := clipSkip
    ] + TaskKwargs(task, s, initImages, mask)
  }

  /** The base pass asks for latents when the model has a VAE to decode them
      later, and carries the denoising window. */
  lemma BaseKwargsOutput(
    s: Settings, refinerLoaded: bool, isHrPass: bool, task: Task, hasVae: bool,
    baseSteps: Value, eta: Value, guidanceRescale: Value, clipSkip: Value,
    initImages: Value, mask: Value)
    ensures var k := BaseKwargs(s, refinerLoaded, isHrPass, task, hasVae, baseSteps, eta, guidanceRescale, clipSkip, initImages, mask);
            var w := DenoisingWindow(s, refinerLoaded, isHrPass, task);
            && k["output_type"] == Str(if hasVae then "latent" else "np")
            && (k["denoising_end"] == NoneValue <==> w.end.None?)
            && (UseRefinerStart(s, refinerLoaded, isHrPass, task) ==> k["denoising_end"] == Real(s.refinerStart))
            && (UseDenoiseStart(s, task) ==> k["denoising_start"] == Real(s.refinerStart))
  {
  }

  /** A sampler is created when the scheduler has no name, when the request
      is "DPM SDE", or when the name differs from the request; never for
      "Default", and for the base model only when it accepts Karras
      schedulers (the refiner passes `true`). */
  predicate WantsSampler(current: Option<string>, requested: string, karrasCompatible: bool) {
    (current.None? || requested == "DPM SDE" || current.value != requested)
    && requested != "Default" && karrasCompatible
  }

  /** The sampler created: the requested one when it is known, otherwise
      "UniPC"; when that is unknown too, reading the name of `None` raises
      AttributeError. */
  function SamplerToCreate(requested: string, known: set<string>): (r: Result<string, PyError>)
    ensures r.Ok? ==> r.value in known
    ensures r.Ok? ==> r.value == requested || r.value == "UniPC"
    ensures r.Err? <==> requested !in known && "UniPC" !in known
    ensures requested in known ==> r == Ok(requested)
    ensures requested !in known ==> r == (if "UniPC" in known then Ok("UniPC") else Err(AttributeError))
  {
    if requested in known then Ok(requested)
    else if "UniPC" in known then Ok("UniPC")
    else Err(AttributeError)
  }

  /** An unchanged request for a named scheduler keeps it, except for
      "DPM SDE", which is always recreated when allowed. */
  lemma SamplerKeptWhenUnchanged(current: Option<string>, requested: string, karrasCompatible: bool)
    ensures current == Some(requested) && requested != "DPM SDE" ==> !WantsSampler(current, requested, karrasCompatible)
    ensures requested == "DPM SDE" && karrasCompatible ==> WantsSampler(current, requested, karrasCompatible)
    ensures requested == "Default" ==> !WantsSampler(current, requested, karrasCompatible)
  {
  }

  /** The input of `vae_decode`: an already decoded result, or a latent
      tensor with its shape. */
  datatype Latents = Decoded(images: Value) | Tensor(shape: seq<nat>)

  /** What `vae_decode` does with it. */
  datatype Decode =
    | AsIs(images: Value)         // returned unchanged
    | NoImages                    // returns []
    | ShapeError                  // `shape[0]` of a 0-dimensional tensor
    | FullDecode(shape: seq<nat>) // VAE decode of a batch of this shape
    | TinyDecode(shape: seq<nat>) // TAESD decode of a batch of this shape

  /** The guards of `vae_decode`, in order: not a tensor, empty batch,
      interrupted or skipped, no VAE; then a 3-dimensional tensor gets a
      batch dimension and the quality setting picks the decoder. */
  function VaeDecode(latents: Latents, interrupted: bool, skipped: bool, hasVae: bool, fullQuality: bool): Decode {
    match latents
    case Decoded(images) => AsIs(images)
    case Tensor(shape) =>
      if |shape| == 0 then ShapeError
      else if shape[0] == 0 then NoImages
      else if interrupted || skipped then NoImages
      else if !hasVae then NoImages
      else
        var batch := if |shape| == 3 then [1] + shape else shape;
        if fullQuality then FullDecode(batch) else TinyDecode(batch)
  }

  /** Decoded input passes through whatever the state; a tensor is decoded
      exactly when it is a non-empty batch, nothing stops the run and the
      model has a VAE; a decoded batch is never 3-dimensional and never
      empty, and it keeps the tensor's trailing dimensions. */
  lemma VaeDecodeGuards(latents: Latents, interrupted: bool, skipped: bool, hasVae: bool, fullQuality: bool)
    ensures var d := VaeDecode(latents, interrupted, skipped, hasVae, fullQuality);
            && (latents.Decoded? ==> d == AsIs(latents.images))
            && (latents.Tensor? ==>
                  && (d.FullDecode? || d.TinyDecode? <==>
                        |latents.shape| > 0 && latents.shape[0] > 0 && !interrupted && !skipped && hasVae)
                  && (d.FullDecode? ==> fullQuality)
                  && (d.TinyDecode? ==> !fullQuality)
                  && (d.FullDecode? || d.TinyDecode? ==>
                        && |d.shape| != 3 && d.shape[0] > 0
                        && d.shape[|d.shape| - |latents.shape|..] == latents.shape))
  {
  }

  /** `vae_encode`: nothing when the run is stopped or the model has no VAE. */
  datatype Encode = EncodeNothing | FullEncode | TinyEncode

  function VaeEncode(interrupted: bool, skipped: bool, hasVae: bool, fullQuality: bool): (r: Encode)
    ensures r == EncodeNothing <==> interrupted || skipped || !hasVae
  {
    if interrupted || skipped then EncodeNothing
    else if !hasVae then EncodeNothing
    else if fullQuality then FullEncode else TinyEncode
  }

  /** The entries `process_diffusers` appends to `p.ops`: the pipeline's task type, then
      "upscale" when the hires pass changes the size, "hires" when it also
      runs a second pass, and "refine" when the refiner runs. A stop request
      seen before the base pass, after it, or before the refiner ends the
      recording there. */
  function StageOps(
    task: Task, stoppedBeforeBase: bool, stoppedAfterBase: bool,
    isHrPass: bool, sizeChanged: bool, secondPass: bool,
    refinerEnabled: bool, stoppedBeforeRefiner: bool): seq<string>
  {
    var t := TaskOp(task);
    if stoppedBeforeBase || stoppedAfterBase then t
    else t + HiresOps(isHrPass, sizeChanged, secondPass) + RefineOps(refinerEnabled, stoppedBeforeRefiner)
  }

  /** The entries of the hires stage. */
  function HiresOps(isHrPass: bool, sizeChanged: bool, secondPass: bool): seq<string> {
    if isHrPass && sizeChanged then ["upscale"] + (if secondPass then ["hires"] else []) else []
  }

  /** The entry of the refiner stage. */
  function RefineOps(refinerEnabled: bool, stoppedBeforeRefiner: bool): seq<string> {
    if refinerEnabled && !stoppedBeforeRefiner then ["refine"] else []
  }

  function StageRank(op: string): int {
    if op == "upscale" then 1 else if op == "hires" then 2 else if op == "refine" then 3 else 0
  }

  /** The entries come in stage order, each at most once; "hires" always
      follows "upscale", and nothing after the pipeline's task type is recorded once the run
      is stopped before the base pass finishes. */
  lemma StageOpsOrdered(
    task: Task, stoppedBeforeBase: bool, stoppedAfterBase: bool,
    isHrPass: bool, sizeChanged: bool, secondPass: bool,
    refinerEnabled: bool, stoppedBeforeRefiner: bool)
    ensures var ops := StageOps(task, stoppedBeforeBase, stoppedAfterBase, isHrPass, sizeChanged, secondPass, refinerEnabled, stoppedBeforeRefiner);
            && |ops| <= 4
            && (forall i, j :: 0 <= i < j < |ops| ==> StageRank(ops[i]) < StageRank(ops[j]))
            && ("hires" in ops ==> "upscale" in ops && isHrPass && secondPass)
            && ("refine" in ops ==> refinerEnabled)
            && (stoppedBeforeBase || stoppedAfterBase ==> ops == TaskOp(task))
  {
    var t := TaskOp(task);
    TaskOpShape(task);
    if !(stoppedBeforeBase || stoppedAfterBase) {
      var hires := HiresOps(isHrPass, sizeChanged, secondPass);
      var refine := RefineOps(refinerEnabled, stoppedBeforeRefiner);
      HiresOpsShape(isHrPass, sizeChanged, secondPass);
      RefineOpsShape(refinerEnabled, stoppedBeforeRefiner);
      RankedParts(t, hires, refine);
    }
  }

  lemma TaskOpShape(task: Task)
    ensures var t := TaskOp(task);
            && |t| <= 1 && (forall k :: 0 <= k < |t| ==> StageRank(t[k]) == 0)
            && "hires" !in t && "refine" !in t && "upscale" !in t
  {
  }

  lemma HiresOpsShape(isHrPass: bool, sizeChanged: bool, secondPass: bool)
    ensures var h := HiresOps(isHrPass, sizeChanged, secondPass);
            && |h| <= 2 && (forall k :: 0 <= k < |h| ==> StageRank(h[k]) == k + 1)
            && ("hires" in h ==> "upscale" in h && isHrPass && secondPass)
            && "refine" !in h
  {
  }

  lemma RefineOpsShape(refinerEnabled: bool, stoppedBeforeRefiner: bool)
    ensures var r := RefineOps(refinerEnabled, stoppedBeforeRefiner);
            && |r| <= 1 && (forall k :: 0 <= k < |r| ==> StageRank(r[k]) == 3)
            && ("refine" in r ==> refinerEnabled)
            && "hires" !in r && "upscale" !in r
  {
  }

  /** A task entry, then entries ranked 1, 2, ... in order, then entries of
      rank 3, at most one of them, are strictly ranked. */
  lemma RankedParts(t: seq<string>, hires: seq<string>, refine: seq<string>)
    requires |t| <= 1 && forall k :: 0 <= k < |t| ==> StageRank(t[k]) == 0
    requires |hires| <= 2 && forall k :: 0 <= k < |hires| ==> StageRank(hires[k]) == k + 1
    requires |refine| <= 1 && forall k :: 0 <= k < |refine| ==> StageRank(refine[k]) == 3
    ensures var ops := t + hires + refine;
            forall i, j :: 0 <= i < j < |ops| ==> StageRank(ops[i]) < StageRank(ops[j])
  {
    var ops := t + hires + refine;
    forall i, j | 0 <= i < j < |ops| ensures StageRank(ops[i]) < StageRank(ops[j]) {
      assert StageRank(ops[i]) == if i < |t| then 0 else if i < |t| + |hires| then i - |t| + 1 else 3;
      assert StageRank(ops[j]) == if j < |t| then 0 else if j < |t| + |hires| then j - |t| + 1 else 3;
    }
  }
}
