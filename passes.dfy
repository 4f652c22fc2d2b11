/**
 * The three calls of `set_pipeline_args` in `process_diffusers`: the base pass
 * and the hires pass, which pass the job's prompt lists again as the secondary
 * lists unless a refiner prompt replaces them, and the refiner pass, which
 * passes one prompt and one negative prompt per output image; each with the
 * keyword arguments of its pass.
 */
module DiffusersPasses {
  import opened Wrappers
  import opened PyLists
  import opened DiffusersPrompts
  import opened PipelineArgs
  import opened DiffusersStages

  /** The values of the base call that come from computations or options
      outside this model. */
  datatype ForeignValues = ForeignValues(steps: Value, eta: Value, guidanceRescale: Value, clipSkip: Value)

  /** The secondary lists of the base call: a one-element list holding the
      refiner prompt when there is one, otherwise the job's own list again. */
  function BaseSecondary(own: seq<string>, refiner: string): seq<string> {
    if |refiner| > 0 then [refiner] else own
  }

  /** `[refiner] if len(refiner) > 0 else own`: a new one-element list, or
      the caller's list object itself. */
  method SecondaryArg(own: PyList<string>, refiner: string) returns (a: PromptArg)
    ensures a.Texts? && Val(a) == Some(BaseSecondary(own.items, refiner))
    ensures |refiner| > 0 ==> fresh(a.list)
    ensures |refiner| == 0 ==> a.list == own
  {
    if |refiner| > 0 {
      var l := new PyList([refiner]);
      a := Texts(l);
    } else {
      a := Texts(own);
    }
  }

  /** `fix_prompts` on the base call's arguments fails exactly when there are
      no negative prompts to repeat: because there are prompts, or because a
      refiner prompt (but no refiner negative) makes the secondary negatives,
      which are the negative list itself, need one entry. Otherwise the
      prompts are kept and the negatives padded to cover them. */
  lemma {:induction false} BaseCallFix(p0: seq<string>, n0: seq<string>, refinerPrompt: string, refinerNegative: string)
    ensures var f := FixPromptValues(Some(p0), Some(n0), Some(BaseSecondary(p0, refinerPrompt)),
                                     Some(BaseSecondary(n0, refinerNegative)), |refinerNegative| == 0);
            && (f.Err? <==> n0 == [] && (|p0| > 0 || (|refinerPrompt| > 0 && |refinerNegative| == 0)))
            && (f.Err? ==> f.error == IndexError)
            && (f.Ok? ==>
                  && f.value.prompts == p0
                  && |n0| <= |f.value.negatives| && |p0| <= |f.value.negatives|
                  && f.value.negatives[..|n0|] == n0)
  {
    var q0 := BaseSecondary(p0, refinerPrompt);
    var m0 := BaseSecondary(n0, refinerNegative);
    var alias := |refinerNegative| == 0;
    if CanPad(n0, |p0|) {
      PaddedShape(n0, |p0|);
      PaddedShape(q0, |p0|);
      if FixPromptValues(Some(p0), Some(n0), Some(q0), Some(m0), alias).Ok? {
        NegativesCoverPrompts(Some(p0), Some(n0), Some(q0), Some(m0), alias);
      }
    }
  }

  /** `set_pipeline_args` as the base and hires passes call it: the job's
      prompt lists, passed again as the secondary lists unless a refiner
      prompt replaces them. The negative prompts end up padded to the
      prompts, which are left unchanged, and every keyword the signature
      accepts reaches the pipeline (`clip_skip` aside, which the prompt
      parser may consume). */
  method PromptPassArgs(
    model: PipelineModel, fixedAttention: bool, parsed: Option<Embeddings>,
    cfgScale: real, generator: Value, callback: Value,
    prompts: PyList<string>, negatives: PyList<string>, refinerPrompt: string, refinerNegative: string,
    kwargs: map<string, Value>)
    returns (r: Result<map<string, Value>, PyError>)
    requires prompts != negatives
    modifies prompts, negatives
    ensures old(negatives.items) == [] && (|old(prompts.items)| > 0 || (|refinerPrompt| > 0 && |refinerNegative| == 0)) ==>
              r == Err(IndexError)
    ensures old(negatives.items) != [] && (fixedAttention || parsed.None?) ==> r.Ok?
    ensures r.Ok? ==>
              && prompts.items == old(prompts.items)
              && |old(negatives.items)| <= |negatives.items| && |prompts.items| <= |negatives.items|
              && negatives.items[..|old(negatives.items)|] == old(negatives.items)
    ensures r.Ok? ==>
              forall k :: k in kwargs && k in model.possible && k != "clip_skip" ==> k in r.value && r.value[k] == kwargs[k]
  {
    var prompts2 := SecondaryArg(prompts, refinerPrompt);
    var negatives2 := SecondaryArg(negatives, refinerNegative);
    BaseCallFix(prompts.items, negatives.items, refinerPrompt, refinerNegative);
    assert SameList(Texts(negatives), negatives2) == (|refinerNegative| == 0);
    ghost var f := FixPromptValues(Some(prompts.items), Some(negatives.items),
                                   Some(BaseSecondary(prompts.items, refinerPrompt)),
                                   Some(BaseSecondary(negatives.items, refinerNegative)), |refinerNegative| == 0);
    r := SetPipelineArgs(model, fixedAttention, Texts(prompts), Texts(negatives), prompts2, negatives2,
                         parsed, cfgScale, generator, callback, kwargs);
    if f.Ok? {
      BuiltKeepsKwargs(r, model, fixedAttention, f.value.prompts, f.value.negatives,
                       parsed, cfgScale, generator, callback, kwargs);
      if fixedAttention || parsed.None? {
        BuiltWithoutParser(r, model, fixedAttention, f.value.prompts, f.value.negatives,
                           parsed, cfgScale, generator, callback, kwargs);
      }
    }
  }

  /** The arguments of the base pass: a pipeline with an output type
      parameter is asked for latents exactly when the model has a VAE, which
      overrides the default of decoded arrays, and the denoising window
      reaches the pipeline. */
  method BaseArgs(
    model: PipelineModel, fixedAttention: bool, parsed: Option<Embeddings>,
    s: Settings, cfgScale: real, generator: Value, callback: Value,
    prompts: PyList<string>, negatives: PyList<string>, refinerPrompt: string, refinerNegative: string,
    refinerLoaded: bool, isHrPass: bool, task: Task, hasVae: bool, foreign: ForeignValues,
    initImages: Value, mask: Value)
    returns (r: Result<map<string, Value>, PyError>)
    requires prompts != negatives
    modifies prompts, negatives
    ensures old(negatives.items) == [] && (|old(prompts.items)| > 0 || (|refinerPrompt| > 0 && |refinerNegative| == 0)) ==>
              r == Err(IndexError)
    ensures old(negatives.items) != [] && (fixedAttention || parsed.None?) ==> r.Ok?
    ensures r.Ok? ==>
              && prompts.items == old(prompts.items)
              && |prompts.items| <= |negatives.items|
    ensures r.Ok? && "output_type" in model.possible ==>
              "output_type" in r.value && r.value["output_type"] == Str(if hasVae then "latent" else "np")
    ensures r.Ok? && "denoising_end" in model.possible && UseRefinerStart(s, refinerLoaded, isHrPass, task) ==>
              "denoising_end" in r.value && r.value["denoising_end"] == Real(s.refinerStart)
    ensures r.Ok? && "denoising_start" in model.possible && UseDenoiseStart(s, task) ==>
              "denoising_start" in r.value && r.value["denoising_start"] == Real(s.refinerStart)
  {
    var kwargs := BaseKwargs(s, refinerLoaded, isHrPass, task, hasVae,
                             foreign.steps, foreign.eta, foreign.guidanceRescale, foreign.clipSkip, initImages, mask);
    BaseKwargsOutput(s, refinerLoaded, isHrPass, task, hasVae,
                     foreign.steps, foreign.eta, foreign.guidanceRescale, foreign.clipSkip, initImages, mask);
    r := PromptPassArgs(model, fixedAttention, parsed, cfgScale, generator, callback,
                        prompts, negatives, refinerPrompt, refinerNegative, kwargs);
  }

  /** `p.image_cfg_scale if p.image_cfg_scale is not None else p.cfg_scale`. */
  function SecondPassScale(imageCfgScale: Option<real>, cfgScale: real): real {
    if imageCfgScale.Some? then imageCfgScale.value else cfgScale
  }

  /** The keyword arguments of the hires pass. */
  function HiresKwargs(s: Settings, imageCfgScale: Option<real>, cfgScale: real, hasVae: bool,
                       foreign: ForeignValues, initImages: Value): map<string, Value>
  {
    map[
      "num_inference_steps" := foreign.steps,
      "eta" := foreign.eta,
      "guidance_scale" := Real(SecondPassScale(imageCfgScale, cfgScale)),
      "guidance_rescale" := foreign.guidanceRescale,
      "output_type" := Str(if hasVae then "latent" else "np"),
      "clip_skip" := foreign.clipSkip,
      "image" := initImages,
      "strength" := Real(s.denoisingStrength)
    ]
  }

  /** The arguments of the hires pass: the upscaled images with the
      denoising strength, and the image guidance scale (when set) in place of
      the default guidance scale. */
  method HiresArgs(
    model: PipelineModel, fixedAttention: bool, parsed: Option<Embeddings>,
    s: Settings, cfgScale: real, imageCfgScale: Option<real>, generator: Value, callback: Value,
    prompts: PyList<string>, negatives: PyList<string>, refinerPrompt: string, refinerNegative: string,
    hasVae: bool, foreign: ForeignValues, initImages: Value)
    returns (r: Result<map<string, Value>, PyError>)
    requires prompts != negatives
    modifies prompts, negatives
    ensures old(negatives.items) == [] && (|old(prompts.items)| > 0 || (|refinerPrompt| > 0 && |refinerNegative| == 0)) ==>
              r == Err(IndexError)
    ensures old(negatives.items) != [] && (fixedAttention || parsed.None?) ==> r.Ok?
    ensures r.Ok? && "guidance_scale" in model.possible ==>
              "guidance_scale" in r.value && r.value["guidance_scale"] == Real(SecondPassScale(imageCfgScale, cfgScale))
    ensures r.Ok? && "image" in model.possible ==> "image" in r.value && r.value["image"] == initImages
    ensures r.Ok? && "strength" in model.possible ==>
              "strength" in r.value && r.value["strength"] == Real(s.denoisingStrength)
  {
    var kwargs := HiresKwargs(s, imageCfgScale, cfgScale, hasVae, foreign, initImages);
    r := PromptPassArgs(model, fixedAttention, parsed, cfgScale, generator, callback,
                        prompts, negatives, refinerPrompt, refinerNegative, kwargs);
  }

  /** The refiner's prompt for output image `i`: a new list holding the
      refiner prompt when there is one, otherwise the `i`-th prompt, which
      is missing (IndexError) when there are more images than prompts. */
  method RefinerPrompt(refiner: string, prompts: seq<string>, i: nat) returns (r: Result<PromptArg, PyError>)
    ensures |refiner| > 0 ==> r.Ok? && r.value.Texts? && fresh(r.value.list) && r.value.list.items == [refiner]
    ensures |refiner| == 0 && i < |prompts| ==> r == Ok(Text(prompts[i]))
    ensures |refiner| == 0 && i >= |prompts| ==> r == Err(IndexError)
  {
    if |refiner| > 0 {
      var l := new PyList([refiner]);
      return Ok(Texts(l));
    }
    if i < |prompts| {
      return Ok(Text(prompts[i]));
    }
    return Err(IndexError);
  }

  /** The keyword arguments of the refiner pass for one image. */
  function RefinerKwargs(s: Settings, imageCfgScale: Option<real>, cfgScale: real, refinerHasVae: bool,
                         foreign: ForeignValues, image: Value): map<string, Value>
  {
    var window := InOpenUnit(s.refinerStart);
    map[
      "num_inference_steps" := foreign.steps,
      "eta" := foreign.eta,
      "strength" := Real(s.denoisingStrength),
      "guidance_scale" := Real(SecondPassScale(imageCfgScale, cfgScale)),
      "guidance_rescale" := foreign.guidanceRescale,
      "denoising_start" := if window then Real(s.refinerStart) else NoneValue,
      "denoising_end" := if window then Real(1.0) else NoneValue,
      "image" := image,
      "output_type" := Str(if refinerHasVae then "latent" else "np"),
      "clip_skip" := foreign.clipSkip
    ]
  }

  /** `set_pipeline_args` with one prompt, one negative prompt and no
      secondary lists: it cannot fail on the prompts, and with the fixed
      attention parser the pipeline receives that one prompt unless a
      keyword replaces it. Every keyword the signature accepts reaches the
      pipeline. */
  method SinglePromptArgs(
    model: PipelineModel, fixedAttention: bool, parsed: Option<Embeddings>,
    cfgScale: real, generator: Value, callback: Value,
    prompt: PromptArg, negative: PromptArg, kwargs: map<string, Value>)
    returns (r: Result<map<string, Value>, PyError>)
    requires Val(prompt).Some? && |Val(prompt).value| == 1
    requires Val(negative).Some? && |Val(negative).value| == 1
    requires SeparateSides(prompt, negative, NoPrompts, NoPrompts)
    modifies ListsOf(negative)
    ensures fixedAttention || parsed.None? ==> r.Ok?
    ensures r.Ok? && fixedAttention && "prompt" in model.possible && "prompt" !in kwargs ==>
              "prompt" in r.value && r.value["prompt"] == StrList(old(Val(prompt).value))
    ensures r.Ok? ==>
              forall k :: k in kwargs && k in model.possible && k != "clip_skip" ==> k in r.value && r.value[k] == kwargs[k]
  {
    ghost var pv, nv := Val(prompt).value, Val(negative).value;
    RefinerCallSingletons(pv[0], nv[0]);
    assert [pv[0]] == pv && [nv[0]] == nv;
    r := SetPipelineArgs(model, fixedAttention, prompt, negative, NoPrompts, NoPrompts,
                         parsed, cfgScale, generator, callback, kwargs);
    BuiltKeepsKwargs(r, model, fixedAttention, pv, nv, parsed, cfgScale, generator, callback, kwargs);
    if fixedAttention || parsed.None? {
      BuiltWithoutParser(r, model, fixedAttention, pv, nv, parsed, cfgScale, generator, callback, kwargs);
    }
  }

  /** The arguments of the refiner pass for output image `i`: one prompt and
      one negative prompt, no secondary lists, and the refiner continuing the
      schedule from the refiner start. With the fixed attention parser the
      pipeline receives exactly that one prompt. */
  method RefinerArgs(
    model: PipelineModel, fixedAttention: bool, parsed: Option<Embeddings>,
    s: Settings, cfgScale: real, imageCfgScale: Option<real>, generator: Value, callback: Value,
    prompts: seq<string>, negatives: seq<string>, i: nat, refinerPrompt: string, refinerNegative: string,
    refinerHasVae: bool, foreign: ForeignValues, image: Value)
    returns (r: Result<map<string, Value>, PyError>)
    ensures (|refinerPrompt| == 0 && i >= |prompts|) || (|refinerNegative| == 0 && i >= |negatives|) ==> r == Err(IndexError)
    ensures (|refinerPrompt| > 0 || i < |prompts|) && (|refinerNegative| > 0 || i < |negatives|) && (fixedAttention || parsed.None?) ==>
              r.Ok?
    ensures r.Ok? && fixedAttention && "prompt" in model.possible ==>
              "prompt" in r.value &&
              r.value["prompt"] == StrList([if |refinerPrompt| > 0 then refinerPrompt else prompts[i]])
    ensures r.Ok? && "denoising_start" in model.possible && InOpenUnit(s.refinerStart) ==>
              "denoising_start" in r.value && r.value["denoising_start"] == Real(s.refinerStart)
  {
    var p := RefinerPrompt(refinerPrompt, prompts, i);
    if p.Err? {
      return Err(p.error);
    }
    var n := RefinerPrompt(refinerNegative, negatives, i);
    if n.Err? {
      return Err(n.error);
    }
    var kwargs := RefinerKwargs(s, imageCfgScale, cfgScale, refinerHasVae, foreign, image);
    assert "prompt" !in kwargs && "denoising_start" in kwargs;
    r := SinglePromptArgs(model, fixedAttention, parsed, cfgScale, generator, callback, p.value, n.value, kwargs);
  }
}
