/**
 * `set_pipeline_args`: the keyword arguments handed to a diffusers pipeline.
 * Prompts are normalised by `fix_prompts`; then each argument is set only when
 * the pipeline's call signature has a parameter of that name, prompt
 * embeddings replace the plain prompts when the prompt parser produced them,
 * and finally every caller keyword the signature accepts is copied over the
 * defaults while the others are dropped.
 */
module PipelineArgs {
  import opened Wrappers
  import opened PyText
  import opened PyLists
  import opened DiffusersPrompts

  /** An argument value. Tensors, generators, images and the step callback
      are opaque: the code here only moves them around. */
  datatype Value =
    | Str(s: string)
    | StrList(strs: seq<string>)
    | Int(i: int)
    | Real(r: real)
    | Items(values: seq<Value>)
    | NoneValue
    | Opaque(tag: string)

  /** What the model object tells `set_pipeline_args`: its class name, whether
      it has a `text_encoder`, and the parameter names of its `__call__`. */
  datatype PipelineModel = PipelineModel(className: string, hasTextEncoder: bool, possible: set<string>)

  predicate IsXL(model: PipelineModel) {
    Contains(model.className, "XL")
  }

  /** The prompt parser is only tried on Stable Diffusion pipelines, and only
      when an attention parser other than the fixed one is selected. */
  predicate ParserAttempted(model: PipelineModel, fixedAttention: bool) {
    !fixedAttention && Contains(model.className, "StableDiffusion")
  }

  /** The four results of the prompt parser. */
  datatype Embeddings = Embeddings(prompt: Option<Value>, pooled: Value, negative: Option<Value>, negativePooled: Value)

  const PooledKeys: set<string> := {"pooled_prompt_embeds", "negative_pooled_prompt_embeds"}

  predicate UsesPromptEmbeds(model: PipelineModel, embeds: Option<Embeddings>) {
    && "prompt" in model.possible && model.hasTextEncoder && "prompt_embeds" in model.possible
    && embeds.Some? && embeds.value.prompt.Some?
  }

  predicate UsesNegativeEmbeds(model: PipelineModel, embeds: Option<Embeddings>) {
    && "negative_prompt" in model.possible && model.hasTextEncoder && "negative_prompt_embeds" in model.possible
    && embeds.Some? && embeds.value.negative.Some?
  }

  /** A pooled embedding that comes as a list is replaced by its first entry. */
  function Unwrap(v: Value): Result<Value, PyError> {
    if v.Items? then (if v.values == [] then Err(IndexError) else Ok(v.values[0])) else Ok(v)
  }

  const PromptKeys: set<string> := {"prompt", "prompt_embeds", "pooled_prompt_embeds"}
  const NegativeKeys: set<string> := {"negative_prompt", "negative_prompt_embeds", "negative_pooled_prompt_embeds"}
  const FixedKeys: set<string> := {"guidance_scale", "generator", "output_type", "callback_steps", "callback"}

  /** The prompt side: the embeddings (with the pooled embedding for an XL
      pipeline) when they are used, otherwise the prompt list. */
  function PromptArgs(model: PipelineModel, prompts: seq<string>, embeds: Option<Embeddings>, pooled: Value): (r: map<string, Value>)
    ensures r.Keys <= PromptKeys
  {
    if "prompt" !in model.possible then map[]
    else if UsesPromptEmbeds(model, embeds) then
      if IsXL(model) then map["prompt_embeds" := embeds.value.prompt.value, "pooled_prompt_embeds" := pooled]
      else map["prompt_embeds" := embeds.value.prompt.value]
    else map["prompt" := StrList(prompts)]
  }

  /** The negative side, chosen the same way. */
  function NegativeArgs(model: PipelineModel, negatives: seq<string>, embeds: Option<Embeddings>, pooled: Value): (r: map<string, Value>)
    ensures r.Keys <= NegativeKeys
  {
    if "negative_prompt" !in model.possible then map[]
    else if UsesNegativeEmbeds(model, embeds) then
      if IsXL(model) then map["negative_prompt_embeds" := embeds.value.negative.value, "negative_pooled_prompt_embeds" := pooled]
      else map["negative_prompt_embeds" := embeds.value.negative.value]
    else map["negative_prompt" := StrList(negatives)]
  }

  function FixedDefault(key: string, cfgScale: real, generator: Value, callback: Value): Value {
    if key == "guidance_scale" then Real(cfgScale)
    else if key == "generator" then generator
    else if key == "output_type" then Str("np")
    else if key == "callback_steps" then Int(1)
    else callback
  }

  /** The arguments that do not depend on the prompts, each set when the
      signature has a parameter of that name. */
  function FixedArgs(possible: set<string>, cfgScale: real, generator: Value, callback: Value): (r: map<string, Value>)
    ensures r.Keys == FixedKeys * possible
  {
    map k | k in FixedKeys * possible :: FixedDefault(k, cfgScale, generator, callback)
  }

  /** The arguments `set_pipeline_args` fills in before it looks at the
      caller's keywords. `embeds` is what the prompt parser returned, or
      `None` when it was not tried or raised. Both pooled embeddings are
      unwrapped when the prompt embeddings are used, which fails on an empty
      list. */
  function DefaultArgs(
    model: PipelineModel, prompts: seq<string>, negatives: seq<string>,
    embeds: Option<Embeddings>, cfgScale: real, generator: Value, callback: Value): Result<map<string, Value>, PyError>
  {
    var usePrompt := UsesPromptEmbeds(model, embeds);
    var pooled := if usePrompt then Unwrap(embeds.value.pooled) else Ok(NoneValue);
    var negativePooled :=
      if usePrompt then Unwrap(embeds.value.negativePooled)
      else if embeds.Some? then Ok(embeds.value.negativePooled) else Ok(NoneValue);
    if pooled.Err? || negativePooled.Err? then Err(IndexError)
    else
      Ok(PromptArgs(model, prompts, embeds, pooled.value)
         + NegativeArgs(model, negatives, embeds, negativePooled.value)
         + FixedArgs(model.possible, cfgScale, generator, callback))
  }

  /** The defaults fail exactly when the prompt embeddings are used and a
      pooled embedding is an empty list. */
  lemma DefaultArgsFailure(
    model: PipelineModel, prompts: seq<string>, negatives: seq<string>,
    embeds: Option<Embeddings>, cfgScale: real, generator: Value, callback: Value)
    ensures DefaultArgs(model, prompts, negatives, embeds, cfgScale, generator, callback).Err?
            <==> UsesPromptEmbeds(model, embeds)
                 && (embeds.value.pooled == Items([]) || embeds.value.negativePooled == Items([]))
  {
  }

  /** A pipeline that takes `prompt` gets either the prompt list or the
      prompt embeddings, never both; one that does not take it gets neither. */
  lemma PromptOrEmbeddings(
    model: PipelineModel, prompts: seq<string>, negatives: seq<string>,
    embeds: Option<Embeddings>, cfgScale: real, generator: Value, callback: Value)
    requires DefaultArgs(model, prompts, negatives, embeds, cfgScale, generator, callback).Ok?
    ensures var d := DefaultArgs(model, prompts, negatives, embeds, cfgScale, generator, callback).value;
            && ("prompt" in d <==> "prompt" in model.possible && !UsesPromptEmbeds(model, embeds))
            && ("prompt_embeds" in d <==> UsesPromptEmbeds(model, embeds))
            && ("pooled_prompt_embeds" in d <==> UsesPromptEmbeds(model, embeds) && IsXL(model))
            && ("prompt" in d ==> d["prompt"] == StrList(prompts))
            && ("prompt_embeds" in d ==> d["prompt_embeds"] == embeds.value.prompt.value)
  {
  }

  /** The same choice for the negative prompts. */
  lemma NegativeOrEmbeddings(
    model: PipelineModel, prompts: seq<string>, negatives: seq<string>,
    embeds: Option<Embeddings>, cfgScale: real, generator: Value, callback: Value)
    requires DefaultArgs(model, prompts, negatives, embeds, cfgScale, generator, callback).Ok?
    ensures var d := DefaultArgs(model, prompts, negatives, embeds, cfgScale, generator, callback).value;
            && ("negative_prompt" in d <==> "negative_prompt" in model.possible && !UsesNegativeEmbeds(model, embeds))
            && ("negative_prompt_embeds" in d <==> UsesNegativeEmbeds(model, embeds))
            && ("negative_pooled_prompt_embeds" in d <==> UsesNegativeEmbeds(model, embeds) && IsXL(model))
            && ("negative_prompt" in d ==> d["negative_prompt"] == StrList(negatives))
            && ("negative_prompt_embeds" in d ==> d["negative_prompt_embeds"] == embeds.value.negative.value)
  {
  }

  /** Every default is a parameter of the pipeline, except the pooled
      embeddings of an XL pipeline, which are set without looking. */
  lemma DefaultsWithinSignature(
    model: PipelineModel, prompts: seq<string>, negatives: seq<string>,
    embeds: Option<Embeddings>, cfgScale: real, generator: Value, callback: Value)
    requires DefaultArgs(model, prompts, negatives, embeds, cfgScale, generator, callback).Ok?
    ensures var d := DefaultArgs(model, prompts, negatives, embeds, cfgScale, generator, callback).value;
            forall k :: k in d ==> k in model.possible || (k in PooledKeys && IsXL(model))
  {
  }

  /** The fixed defaults, each present exactly when the signature has it:
      the configured guidance scale, the generators, decoded arrays ("np")
      as output type, a callback every step, and the step callback. */
  lemma FixedDefaults(
    model: PipelineModel, prompts: seq<string>, negatives: seq<string>,
    embeds: Option<Embeddings>, cfgScale: real, generator: Value, callback: Value)
    requires DefaultArgs(model, prompts, negatives, embeds, cfgScale, generator, callback).Ok?
    ensures var d := DefaultArgs(model, prompts, negatives, embeds, cfgScale, generator, callback).value;
            && (forall k :: k in FixedKeys ==> (k in d <==> k in model.possible))
            && ("guidance_scale" in model.possible ==> d["guidance_scale"] == Real(cfgScale))
            && ("generator" in model.possible ==> d["generator"] == generator)
            && ("output_type" in model.possible ==> d["output_type"] == Str("np"))
            && ("callback_steps" in model.possible ==> d["callback_steps"] == Int(1))
            && ("callback" in model.possible ==> d["callback"] == callback)
  {
    FixedPart(model, prompts, negatives, embeds, cfgScale, generator, callback);
  }

  /** On the fixed keys the defaults are exactly `FixedArgs`: the prompt
      sides never set one of them. */
  lemma FixedPart(
    model: PipelineModel, prompts: seq<string>, negatives: seq<string>,
    embeds: Option<Embeddings>, cfgScale: real, generator: Value, callback: Value)
    requires DefaultArgs(model, prompts, negatives, embeds, cfgScale, generator, callback).Ok?
    ensures var d := DefaultArgs(model, prompts, negatives, embeds, cfgScale, generator, callback).value;
            var f := FixedArgs(model.possible, cfgScale, generator, callback);
            forall k :: k in FixedKeys ==> (k in d <==> k in f) && (k in f ==> d[k] == f[k])
  {
    var usePrompt := UsesPromptEmbeds(model, embeds);
    var pooled := if usePrompt then Unwrap(embeds.value.pooled) else Ok(NoneValue);
    var negativePooled :=
      if usePrompt then Unwrap(embeds.value.negativePooled)
      else if embeds.Some? then Ok(embeds.value.negativePooled) else Ok(NoneValue);
    var pa := PromptArgs(model, prompts, embeds, pooled.value);
    var na := NegativeArgs(model, negatives, embeds, negativePooled.value);
    var f := FixedArgs(model.possible, cfgScale, generator, callback);
    assert DefaultArgs(model, prompts, negatives, embeds, cfgScale, generator, callback).value == pa + na + f;
  }

  /** `r` is `args` with every entry of `kwargs` whose key is in `possible`
      written over it, and nothing else. */
  predicate Overrides(r: map<string, Value>, args: map<string, Value>, kwargs: map<string, Value>, possible: set<string>) {
    && r.Keys == args.Keys + (kwargs.Keys * possible)
    && forall k :: k in r ==> r[k] == if k in kwargs && k in possible then kwargs[k] else args[k]
  }

  /** Every argument is a parameter of the pipeline, except the pooled
      embeddings of an XL pipeline. */
  predicate WithinSignature(r: map<string, Value>, model: PipelineModel) {
    forall k :: k in r ==> k in model.possible || (k in PooledKeys && IsXL(model))
  }

  /** A keyword the signature accepts reaches the pipeline unchanged; one it
      does not accept is dropped unless a default of that name exists. */
  lemma OverrideWins(r: map<string, Value>, args: map<string, Value>, kwargs: map<string, Value>, possible: set<string>, k: string)
    requires Overrides(r, args, kwargs, possible)
    ensures k in kwargs && k in possible ==> k in r && r[k] == kwargs[k]
    ensures k !in possible && k !in args ==> k !in r
    ensures k in args && (k !in kwargs || k !in possible) ==> k in r && r[k] == args[k]
  {
  }

  /** The loop over the caller's keywords: each one the signature accepts
      overrides the default of the same name; the others are dropped. */
  method ApplyKwargs(args: map<string, Value>, kwargs: map<string, Value>, possible: set<string>)
    returns (r: map<string, Value>)
    ensures Overrides(r, args, kwargs, possible)
  {
    r := args;
    var todo := kwargs.Keys;
    while todo != {}
      invariant todo <= kwargs.Keys
      invariant r.Keys == args.Keys + ((kwargs.Keys - todo) * possible)
      invariant forall k :: k in r ==> r[k] == if k in kwargs && k !in todo && k in possible then kwargs[k] else args[k]
      decreases |todo|
    {
      var arg :| arg in todo;
      if arg in possible {
        r := r[arg := kwargs[arg]];
      }
      todo := todo - {arg};
    }
  }

  /** The caller's keywords as the loop sees them: when the prompt parser is
      tried it has already popped `clip_skip`. */
  function EffectiveKwargs(kwargs: map<string, Value>, parserAttempted: bool): map<string, Value> {
    if parserAttempted then kwargs - {"clip_skip"} else kwargs
  }

  /** `r` is what `set_pipeline_args` builds from the fixed prompt lists:
      the defaults, overridden by the caller's keywords the signature takes,
      or the error the defaults raise. */
  predicate BuiltFrom(
    r: Result<map<string, Value>, PyError>,
    model: PipelineModel, fixedAttention: bool, prompts: seq<string>, negatives: seq<string>,
    parsed: Option<Embeddings>, cfgScale: real, generator: Value, callback: Value,
    kwargs: map<string, Value>)
  {
    var attempted := ParserAttempted(model, fixedAttention);
    var d := DefaultArgs(model, prompts, negatives, if attempted then parsed else None, cfgScale, generator, callback);
    && (d.Err? ==> r == Err(d.error))
    && (d.Ok? ==> r.Ok? && Overrides(r.value, d.value, EffectiveKwargs(kwargs, attempted), model.possible))
  }

  /** The arguments `set_pipeline_args` builds from the fixed prompt lists.
      Apart from the pooled embeddings of an XL pipeline, every argument is a
      parameter of the pipeline. */
  method BuildArgs(
    model: PipelineModel, fixedAttention: bool, prompts: seq<string>, negatives: seq<string>,
    parsed: Option<Embeddings>, cfgScale: real, generator: Value, callback: Value,
    kwargs: map<string, Value>)
    returns (r: Result<map<string, Value>, PyError>)
    ensures BuiltFrom(r, model, fixedAttention, prompts, negatives, parsed, cfgScale, generator, callback, kwargs)
    ensures r.Ok? ==> WithinSignature(r.value, model)
  {
    var attempted := ParserAttempted(model, fixedAttention);
    var kw := EffectiveKwargs(kwargs, attempted);
    var embeds := if attempted then parsed else None;
    var d := DefaultArgs(model, prompts, negatives, embeds, cfgScale, generator, callback);
    if d.Err? {
      return Err(d.error);
    }
    DefaultsWithinSignature(model, prompts, negatives, embeds, cfgScale, generator, callback);
    var args := ApplyKwargs(d.value, kw, model.possible);
    return Ok(args);
  }

  /** Every caller keyword the signature accepts reaches the pipeline
      unchanged, `clip_skip` aside, which the prompt parser may consume. */
  lemma BuiltKeepsKwargs(
    r: Result<map<string, Value>, PyError>,
    model: PipelineModel, fixedAttention: bool, prompts: seq<string>, negatives: seq<string>,
    parsed: Option<Embeddings>, cfgScale: real, generator: Value, callback: Value,
    kwargs: map<string, Value>)
    requires BuiltFrom(r, model, fixedAttention, prompts, negatives, parsed, cfgScale, generator, callback, kwargs)
    ensures r.Ok? ==>
              forall k :: k in kwargs && k in model.possible && k != "clip_skip" ==> k in r.value && r.value[k] == kwargs[k]
  {
    if r.Ok? {
      var attempted := ParserAttempted(model, fixedAttention);
      var d := DefaultArgs(model, prompts, negatives, if attempted then parsed else None, cfgScale, generator, callback);
      var kw := EffectiveKwargs(kwargs, attempted);
      forall k | k in kwargs && k in model.possible && k != "clip_skip"
        ensures k in r.value && r.value[k] == kwargs[k]
      {
        OverrideWins(r.value, d.value, kw, model.possible, k);
      }
    }
  }

  /** Building cannot fail without prompt embeddings: with the fixed
      attention parser, or when the parser raised. Then the pipeline gets the
      prompt list itself, unless a keyword replaces it. */
  lemma BuiltWithoutParser(
    r: Result<map<string, Value>, PyError>,
    model: PipelineModel, fixedAttention: bool, prompts: seq<string>, negatives: seq<string>,
    parsed: Option<Embeddings>, cfgScale: real, generator: Value, callback: Value,
    kwargs: map<string, Value>)
    requires BuiltFrom(r, model, fixedAttention, prompts, negatives, parsed, cfgScale, generator, callback, kwargs)
    requires fixedAttention || parsed.None?
    ensures r.Ok?
    ensures "prompt" in model.possible && "prompt" !in kwargs ==>
              "prompt" in r.value && r.value["prompt"] == StrList(prompts)
  {
    var attempted := ParserAttempted(model, fixedAttention);
    var embeds := if attempted then parsed else None;
    DefaultArgsFailure(model, prompts, negatives, embeds, cfgScale, generator, callback);
    var d := DefaultArgs(model, prompts, negatives, embeds, cfgScale, generator, callback);
    PromptOrEmbeddings(model, prompts, negatives, embeds, cfgScale, generator, callback);
    OverrideWins(r.value, d.value, EffectiveKwargs(kwargs, attempted), model.possible, "prompt");
  }

  /** `set_pipeline_args`: `fix_prompts` on the prompt arguments, then
      `BuildArgs` on the lists it leaves. The prompt parser is foreign:
      `parsed` is what it returns when it is tried (`None` when it raises),
      and `callback` stands for the step callback. */
  method SetPipelineArgs(
    model: PipelineModel, fixedAttention: bool,
    prompts: PromptArg, negatives: PromptArg, prompts2: PromptArg, negatives2: PromptArg,
    parsed: Option<Embeddings>, cfgScale: real, generator: Value, callback: Value,
    kwargs: map<string, Value>)
    returns (r: Result<map<string, Value>, PyError>)
    requires SeparateSides(prompts, negatives, prompts2, negatives2)
    modifies ListsOf(negatives), ListsOf(prompts2), ListsOf(negatives2)
    ensures var fixed := old(FixPromptValues(Val(prompts), Val(negatives), Val(prompts2), Val(negatives2), SameList(negatives, negatives2)));
            && (fixed.Err? ==> r == Err(fixed.error))
            && (fixed.Ok? && prompts.Texts? ==> prompts.list.items == fixed.value.prompts)
            && (fixed.Ok? && negatives.Texts? ==> negatives.list.items == fixed.value.negatives)
            && (fixed.Ok? ==> BuiltFrom(r, model, fixedAttention, fixed.value.prompts, fixed.value.negatives,
                                        parsed, cfgScale, generator, callback, kwargs))
    ensures r.Ok? ==> WithinSignature(r.value, model)
  {
    var fixed := FixPrompts(prompts, negatives, prompts2, negatives2);
    if fixed.Err? {
      return Err(fixed.error);
    }
    assert prompts.Texts? ==> fixed.value.prompts == prompts.list;
    assert negatives.Texts? ==> fixed.value.negatives == negatives.list;
    r := BuildArgs(model, fixedAttention, fixed.value.prompts.items, fixed.value.negatives.items,
                   parsed, cfgScale, generator, callback, kwargs);
  }
}
