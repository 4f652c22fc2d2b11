# Style merging and diffusers pipeline arguments, in Dafny

This project is a Dafny model of two cores of a Stable Diffusion web UI.

**The style database** (`modules/styles.py`). A style is a named pair of prompt and negative-prompt templates.
- `merge_prompts` merges a style text into the user's prompt. It either substitutes the `{prompt}` placeholder, or joins the stripped prompt and the stripped style with `", "`, using `" "` when the prompt already ends in a comma.
- `apply_styles_to_prompt` folds that merge over a list of styles.
- The database keeps name -> style in a dictionary. It looks names up with an empty "None" style as the fallback.
- It is reloaded from one JSON file per style and saved back the same way. The file names come from a character filter on the style name.

**The diffusers processing step** (`modules/processing_diffusers.py`). It turns a job into up to three pipeline calls: base, hires and refiner.
- `fix_prompts` normalises the prompt arguments. A string becomes a one-element list, and a list is padded in place by repeating its last entry.
- `set_pipeline_args` builds the keyword-argument dictionary of a pipeline call. It sets each default only when the pipeline's call signature has that parameter, prefers prompt embeddings over prompts when the prompt parser produced them, and lets every caller keyword the signature accepts override the default.
- The step decides whether there is a hires and a refiner pass, and which denoising window the base pass runs. It rounds image sizes up to a multiple of 8, picks the sampler to create (falling back to "UniPC"), decides what `vae_decode` does with its input, and records the stages in `p.ops`.
- The step callback counts steps and stops an interrupted run. The OpenVINO compile record triggers a weight reload when the size or batch changes.

Tensors, models, images, generators and the callback are opaque values (`PipelineArgs.Value.Opaque`). The pipeline's accepted parameter names are a `set<string>` and keyword arguments a `map<string, Value>`.

Python objects the source changes in place are classes:
- `PyLists.PyList` is a list padded with `append`.
- `DiffusersRuntime.SharedState` is the progress state.
- `DiffusersRuntime.CompiledModelState` and `DiffusersRuntime.Runtime` hold the compile record and the loader's operations.
- `DiffusersRuntime.Processing` holds the job's hires flag, init images and `ops`.
- `Styles.StyleDatabase` holds the style dictionary.

Loops of the source are `while` loops proved against specification functions:
- the style fold (`FoldStyles`), the reload (`LoadAll`) and the save;
- the padding (`Padded`);
- `fix_prompts` (`FixPromptValues`);
- the keyword loop (`Overrides`).

The loop that calls `diffusers_callback` once per step is inside the diffusers pipeline, not in `modules/processing_diffusers.py`. `DiffusersRuntime.DenoiseSteps` is a driver that stands in for it: it calls the callback up to `n` times and stops at the first call that raises.

Files:
- `wrappers.dfy` has `Option` and `Result`.
- `pytext.dfy` has the Python string operations the styles use.
- `styles.dfy` has the style database.
- `pylists.dfy` has the list object and padding.
- `prompts.dfy` has `fix_prompts`.
- `pipeargs.dfy` has `set_pipeline_args`.
- `stages.dfy` has the stage decisions.
- `runtime.dfy` has the mutable process state.
- `passes.dfy` has the three `set_pipeline_args` calls.

Behaviour of the code that the model keeps, though a reader might not expect it:
- The negative secondary prompts are padded to the length of the secondary prompts, not of the prompts. `len(None)` of missing secondary prompts raises `TypeError` when secondary negatives are given.
- A list passed both as `negative_prompts` and as `negative_prompts_2` (the base and hires calls do this when there is no refiner negative) is padded twice. Its final length is the larger of the two targets (`PyLists.PaddedTwice`).
- Because of that aliasing, the base and hires calls raise `IndexError` when the negative list is empty and something must be repeated. That happens when there are prompts, or when a refiner prompt is given without a refiner negative (`DiffusersPasses.BaseCallFix`).
- For an XL pipeline, the pooled embeddings are set without checking that the signature accepts them.
- When the prompt parser is tried, `clip_skip` has already been popped from the caller's keywords, whether or not the parser succeeds.
- The refiner call indexes `prompts[i]` per output image. With more images than prompts this raises `IndexError` (`DiffusersPasses.RefinerPrompt`).

## Model

| member | source | states |
|---|---|---|
| PyText.LStrip | modules/styles.py:25 | the result is a suffix of the input that does not start with whitespace |
| PyText.RStrip | modules/styles.py:102 | the result is a prefix of the input that does not end with whitespace |
| PyText.Strip | modules/styles.py:25-26 | the result is no longer than the input and has whitespace at neither end |
| PyText.LStripDropsSpace | modules/styles.py:25 | everything `lstrip` removes is whitespace |
| PyText.RStripDropsSpace | modules/styles.py:102 | everything `rstrip` removes is whitespace |
| PyText.StripIsInfix | modules/styles.py:25-26 | `strip()` returns a contiguous piece of the input with only whitespace before and after it |
| PyText.StrippedFixedPoint | modules/styles.py:25-26 | a string with no whitespace at either end is its own strip |
| PyText.StripIdempotent | modules/styles.py:13 | stripping twice equals stripping once |
| PyText.StripEmptyIff | modules/styles.py:27 | a string strips to "" exactly when it is all whitespace, which decides what `filter(None, ...)` drops |
| PyText.ContainsIffOccurs | modules/styles.py:22 | the `in` scan succeeds exactly when the pattern occurs at some index |
| PyText.Split | modules/styles.py:23 | `split` yields at least one piece, and the first piece is a prefix of the input free of the pattern |
| PyText.SplitPiecesFree | modules/styles.py:23 | no piece of `split` contains the pattern: it cuts at every occurrence |
| PyText.ReplaceIsJoinOfSplit | modules/styles.py:23 | `s.replace(pat, rep)` equals `rep.join(s.split(pat))` |
| PyText.ReplaceWithSelf | modules/styles.py:23 | replacing a pattern by itself gives back the string |
| PyText.SplitJoinRoundTrip | modules/styles.py:23 | joining the split pieces with the pattern gives back the string |
| PyText.SplitCountsOccurrence | modules/styles.py:22-23 | `split` yields more than one piece exactly when the pattern is `in` the string |
| PyText.ReplaceWithoutOccurrence | modules/styles.py:22-23 | without an occurrence, `replace` leaves the string unchanged |
| PyText.Filter | modules/styles.py:102 | the filtered string is no longer than the input, holds only accepted characters, and uses no character more often than the input |
| PyText.FilterCounts | modules/styles.py:102 | every accepted character appears in the filtered string exactly as often as in the input |
| PyText.FilterAppend | modules/styles.py:102 | filtering a concatenation is the concatenation of the filtered parts, so the kept characters stay in input order |
| PyText.StripKeepsNonSpace | modules/styles.py:13 | `strip()` keeps every non-whitespace character as often as the input has it |
| PyText.RStripKeepsNonSpace | modules/styles.py:102 | `rstrip()` keeps every non-whitespace character as often as the input has it |
| PyText.FilterKeepsAll | modules/styles.py:102 | a string made only of accepted characters passes the filter unchanged |
| PyText.FilterIdempotent | modules/styles.py:13 | filtering twice equals filtering once |
| Styles.CleanNameChars | modules/styles.py:13 | a cleaned style name has no tab, CR or LF, no whitespace at either end, and only characters of the original name |
| Styles.CleanNameKeepsCharacters | modules/styles.py:13 | cleaning keeps every non-whitespace character of the name exactly as often as the name has it |
| Styles.CleanNameIdempotent | modules/styles.py:13 | cleaning a cleaned name changes nothing |
| Styles.MergeSubstitutes | modules/styles.py:22-23 | with a placeholder, the result is the style's pieces (none of which contains a placeholder, so every placeholder is replaced) joined by the unstripped prompt, and those pieces rejoined by the placeholder give the style text back |
| Styles.MergeStripped | modules/styles.py:24-31 | without a placeholder, the result has whitespace at neither end |
| Styles.MergeEmptyPrompt | modules/styles.py:25-31 | without a placeholder and with a prompt that strips to "", the result is the stripped style, which is "" when both are empty |
| Styles.MergeEmptyStyle | modules/styles.py:25-31 | without a placeholder and with a style that strips to "", the result is the stripped prompt |
| Styles.MergeJoinsBoth | modules/styles.py:27-31 | with both parts present, the result is stripped prompt + separator + stripped style, the separator being " " after a trailing comma and ", " otherwise |
| Styles.MergeIgnoresOuterWhitespace | modules/styles.py:24-26 | without a placeholder, whitespace around the prompt does not change the result |
| Styles.MergeKeepsPromptInFront | modules/styles.py:24-31 | without a placeholder, the stripped prompt is a prefix of the result |
| Styles.FoldStylesAppend | modules/styles.py:35-38 | applying `a + b` equals applying `a`, then `b` |
| Styles.FoldStylesSnoc | modules/styles.py:35-38 | applying `s + [t]` equals `merge_prompts(t, apply(prompt, s))` |
| Styles.FoldStylesPrefix | modules/styles.py:36-37 | one loop iteration merges the next style into the result of the ones before it |
| Styles.FoldEmptyStyles | modules/styles.py:35-38 | a non-empty list of empty style texts reduces the prompt to its stripped form |
| Styles.ApplyStyles | modules/styles.py:35-38 | the loop returns the left fold of `merge_prompts` over the style texts in list order, and the prompt itself for an empty list |
| Styles.LoadStyle | modules/styles.py:68-70 | a record loads exactly when it has a name, into a style with the cleaned name and the file's relative stem |
| Styles.SaveLoadRoundTrip | modules/styles.py:94-100 | loading the record `save_styles` writes keeps prompt and negative prompt, cleans the name, and empties extra and preview |
| Styles.StyleFileStemChars | modules/styles.py:101-102 | a file stem holds only alphanumerics, ' ', '.' and '_', does not end in whitespace, and uses no character more often than the name |
| Styles.StyleFileStemKeepsCharacters | modules/styles.py:101-102 | the stem keeps every alphanumeric, '.' and '_' of the name exactly as often as the name has it |
| Styles.StyleFileStemIgnoresDropped | modules/styles.py:101-102 | a character outside the kept set, wherever it stands in the name, does not change the stem |
| Styles.StyleFileStemIdempotent | modules/styles.py:102 | the stem of a stem is itself |
| Styles.StyleFileNameShape | modules/styles.py:102-103 | the file name is the stem followed by ".json" |
| Styles.StyleFileNamesCollide | modules/styles.py:101-106 | two different names ("a?" and "a") are saved to the same file |
| Styles.LoadAllStep | modules/styles.py:63-70 | the dictionary after one more file is the previous dictionary with that file loaded into it |
| Styles.ReloadSavedFiles | modules/styles.py:60-100 | reloading saved files gives exactly the names they hold as keys, each with the saved prompt and negative prompt and its name cleaned |
| Styles.ReloadSavedKeys | modules/styles.py:60-70 | the keys after reloading saved files are the names their records carry |
| Styles.ReloadSavedValues | modules/styles.py:60-70 | every reloaded style holds the prompt and negative prompt saved under its key |
| Styles.AddFileLoaded | modules/styles.py:68-70 | loading a file that carries a name stores the style it yields under that name and leaves every other entry as it was |
| Styles.AddSavedFile | modules/styles.py:68-70 | loading one saved file keeps every entry holding the cleaned name, prompt and negative prompt saved under its key |
| Styles.StyleDatabase.constructor | modules/styles.py:42-44 | the database starts empty and the fallback style is `Style("None")` |
| Styles.StyleDatabase.Lookup | modules/styles.py:81 | a known name gives its style; an unknown one a style with empty prompt and negative prompt |
| Styles.StyleDatabase.GetStylePrompts | modules/styles.py:80-81 | one entry per requested name, in order: the style's prompt, or "" for an unknown name |
| Styles.StyleDatabase.GetNegativeStylePrompts | modules/styles.py:83-84 | the same for negative prompts |
| Styles.StyleDatabase.ApplyStylesToPrompt | modules/styles.py:86-87 | the result is the fold of `merge_prompts` over the looked-up prompts |
| Styles.StyleDatabase.ApplyNegativeStylesToPrompt | modules/styles.py:89-90 | the result is the fold over the looked-up negative prompts |
| Styles.StyleDatabase.Reload | modules/styles.py:60-76 | the dictionary is cleared, then holds the files loaded in visiting order, a later file replacing an earlier one of the same name |
| Styles.StyleDatabase.SaveStyles | modules/styles.py:92-106 | one file per style file name, each holding the record of a style saved to that name; with distinct file names, every style's own record |
| Styles.ApplyUnknownStyles | modules/styles.py:86-90 | applying only unknown names gives the stripped prompt, not the original |
| PyLists.PyList.Append | modules/processing_diffusers.py:156 | `append` adds the entry at the end and changes nothing else |
| PyLists.PaddedShape | modules/processing_diffusers.py:155-156 | the padded list has length `max(len, n)`, starts with the original entries, and every added entry is the original last one |
| PyLists.PaddedTwice | modules/processing_diffusers.py:155-166 | padding an aliased list to `a` and then to `b` is padding it once to `max(a, b)` |
| PyLists.PadTo | modules/processing_diffusers.py:155-156 | the loop fails (IndexError) exactly when an empty list must grow, changing nothing; otherwise it leaves the padded list |
| DiffusersPrompts.NegativesCoverPrompts | modules/processing_diffusers.py:155-156 | after a successful fix: the prompts are unchanged, there are at least as many negatives as prompts, the original negatives come first, and every added one repeats the last original |
| DiffusersPrompts.SecondaryPromptsPadded | modules/processing_diffusers.py:157-161 | secondary prompts are padded to the number of prompts by repeating their last entry; `None` stays `None` |
| DiffusersPrompts.SecondaryNegativesPadded | modules/processing_diffusers.py:162-166 | secondary negatives, present only beside secondary prompts, are padded to the number of secondary prompts (which cover the prompts): length `max(len, len(prompts_2))`, original entries first, every added one the last original; when they alias the negatives, both are the same list |
| DiffusersPrompts.FixErrors | modules/processing_diffusers.py:150-167 | TypeError for missing prompts or negatives and for secondary negatives without secondary prompts; IndexError for an empty negative list against prompts |
| DiffusersPrompts.FixSucceeds | modules/processing_diffusers.py:150-167 | non-empty lists for every present argument, with secondary negatives only beside secondary prompts, never fail |
| DiffusersPrompts.BaseCallAliases | modules/processing_diffusers.py:339-344 | with the job's lists passed again as secondary lists, the fixed secondary lists equal the fixed primary ones |
| DiffusersPrompts.RefinerCallSingletons | modules/processing_diffusers.py:446-449 | one prompt and one negative prompt without secondary lists come back as two one-element lists |
| DiffusersPrompts.WrapAndPad | modules/processing_diffusers.py:151-156 | a string becomes a new padded list, a list is padded in place, `None` stays; IndexError when an empty list must grow |
| DiffusersPrompts.FixPrompts | modules/processing_diffusers.py:150-167 | fails with exactly the error of `FixPromptValues`; otherwise the returned lists hold its values, are the caller's lists where lists were passed, and are new lists for strings |
| DiffusersPrompts.FixSecondary | modules/processing_diffusers.py:157-166 | the secondary half of the fix matches `FixSecondaryValues`, on the caller's lists |
| PipelineArgs.PromptArgs | modules/processing_diffusers.py:195-205 | the prompt side sets only `prompt`, `prompt_embeds` and `pooled_prompt_embeds` |
| PipelineArgs.NegativeArgs | modules/processing_diffusers.py:206-212 | the negative side sets only the three negative keys |
| PipelineArgs.FixedArgs | modules/processing_diffusers.py:213-222 | each fixed default is present exactly when the signature has that parameter |
| PipelineArgs.DefaultArgsFailure | modules/processing_diffusers.py:196-200 | building the defaults fails exactly when the prompt embeddings are used and a pooled embedding is an empty list |
| PipelineArgs.PromptOrEmbeddings | modules/processing_diffusers.py:195-205 | `prompt` or `prompt_embeds`, never both, when `prompt` is accepted; embeddings exactly with a text encoder, an accepted `prompt_embeds` and a produced embedding; pooled ones only for XL |
| PipelineArgs.NegativeOrEmbeddings | modules/processing_diffusers.py:206-212 | the same choice for the negative prompt |
| PipelineArgs.DefaultsWithinSignature | modules/processing_diffusers.py:195-222 | every default is an accepted parameter, except the pooled embeddings of an XL pipeline |
| PipelineArgs.FixedDefaults | modules/processing_diffusers.py:213-222 | each fixed key is present exactly when the signature accepts it, with the job's CFG scale as `guidance_scale`, the generators, `output_type` "np", `callback_steps` 1 and the step callback |
| PipelineArgs.OverrideWins | modules/processing_diffusers.py:223-227 | an accepted keyword reaches the pipeline unchanged; an unaccepted one does not, unless a default of that name exists; an un-overridden default stays |
| PipelineArgs.ApplyKwargs | modules/processing_diffusers.py:223-227 | the loop writes every accepted keyword over the defaults and adds nothing else |
| PipelineArgs.BuildArgs | modules/processing_diffusers.py:188-227 | the defaults built from the fixed lists, overridden by the accepted keywords (minus a popped `clip_skip`), or the defaults' error; all keys accepted but XL pooled ones |
| PipelineArgs.BuiltKeepsKwargs | modules/processing_diffusers.py:189-227 | every accepted caller keyword other than `clip_skip` reaches the pipeline unchanged |
| PipelineArgs.BuiltWithoutParser | modules/processing_diffusers.py:188-205 | without produced embeddings building cannot fail, and the pipeline gets the prompt list unless a keyword replaces it |
| PipelineArgs.SetPipelineArgs | modules/processing_diffusers.py:169-254 | fails with the error of `fix_prompts`, leaves the caller's lists fixed, and otherwise returns what `BuildArgs` builds from the fixed lists |
| DiffusersStages.WindowsExclusive | modules/processing_diffusers.py:325-327 | `use_refiner_start` and `use_denoise_start` are never both true |
| DiffusersStages.DenoisingWindowCases | modules/processing_diffusers.py:348-349 | the base window is (0, refiner start), (refiner start, 1), or (None, None) |
| DiffusersStages.WindowWellFormed | modules/processing_diffusers.py:348-349 | both ends or neither are set, a set window is a non-empty part of [0, 1] with the refiner start as one end, and a refiner start outside (0, 1) gives none |
| DiffusersStages.RoundUp8 | modules/processing_diffusers.py:309 | `8 * ceil(x / 8)` is a multiple of 8 in `[x, x + 8)` |
| DiffusersStages.RoundUp8Unique | modules/processing_diffusers.py:309 | it is the only multiple of 8 in that range |
| DiffusersStages.RoundUp8KeepsMultiples | modules/processing_diffusers.py:315 | a size that is a multiple of 8 is kept |
| DiffusersStages.TaskKwargsShape | modules/processing_diffusers.py:306-315 | sizes are rounded multiples of 8 for text-to-image and inpainting; images exactly for the image tasks; a mask only for inpainting |
| DiffusersStages.BaseKwargsOutput | modules/processing_diffusers.py:339-354 | the base keywords ask for latents exactly when the model has a VAE, and carry the denoising window |
| DiffusersStages.SamplerToCreate | modules/processing_diffusers.py:287-289 | the created sampler is always a known one, either the requested one or "UniPC", the requested one whenever it is known; AttributeError exactly when neither is known |
| DiffusersStages.SamplerKeptWhenUnchanged | modules/processing_diffusers.py:286 | an unchanged named scheduler is kept (except "DPM SDE", always recreated when allowed), and "Default" never creates one |
| DiffusersStages.VaeDecodeGuards | modules/processing_diffusers.py:117-135 | decoded input passes through; a tensor is decoded exactly when it is a non-empty batch, the run is not stopped and there is a VAE; the decoded batch is never 3-dimensional |
| DiffusersStages.VaeEncode | modules/processing_diffusers.py:137-148 | nothing is encoded exactly when the run is stopped or there is no VAE |
| DiffusersStages.StageOpsOrdered | modules/processing_diffusers.py:307-439 | the recorded stages come in stage order, at most once each; "hires" only after "upscale"; a stop before or after the base pass records only the pipeline's task type |
| DiffusersStages.TaskOpShape | modules/processing_diffusers.py:307-314 | the pipeline's task type records at most one entry, none of the later stages |
| DiffusersStages.HiresOpsShape | modules/processing_diffusers.py:375-383 | the hires stage records "upscale" then possibly "hires", the latter only on a hires pass with a second pass |
| DiffusersStages.RefineOpsShape | modules/processing_diffusers.py:431-439 | the refiner stage records "refine" only when the refiner is enabled |
| DiffusersRuntime.SharedState.StepCallback | modules/processing_diffusers.py:51-58 | the step count grows by exactly 1, the total is the steps plus hires steps on a hires pass, the latents are published, and it stops exactly when interrupted or skipped |
| DiffusersRuntime.DenoiseSteps | modules/processing_diffusers.py:51-58 | a driver for the callback, standing in for the pipeline's step loop: `n` callbacks count `n` steps, or just 1 when the first one stops the run |
| DiffusersRuntime.RecompileModel | modules/processing_diffusers.py:256-281 | weights are reloaded (the refiner's too when enabled) exactly when there is no record, or one past its first pass differs in size or batch; afterwards the record holds the compiled size and batch and is past its first pass, or AttributeError when there is none |
| DiffusersRuntime.RecompileTwice | modules/processing_diffusers.py:256-277 | after a successful recompile, the same call again reloads nothing |
| DiffusersRuntime.Processing.MarkHrPass | modules/processing_diffusers.py:22-23 | the hires flag is set when hires is requested and otherwise kept |
| DiffusersRuntime.Processing.PadInitImages | modules/processing_diffusers.py:301-303 | non-empty init images are padded to one per prompt; none stay none |
| DiffusersRuntime.Processing.RecordHires | modules/processing_diffusers.py:375-383 | appends the hires stage's entries |
| DiffusersRuntime.Processing.RecordStages | modules/processing_diffusers.py:307-439 | appends exactly `StageOps`, including the early returns at the three stop checks |
| DiffusersPasses.SecondaryArg | modules/processing_diffusers.py:343-344 | a new one-element list for a refiner text, or the job's own list object |
| DiffusersPasses.BaseCallFix | modules/processing_diffusers.py:339-344 | the base call's fix fails (IndexError) exactly when the negatives are empty and there are prompts, or a refiner prompt without a refiner negative; otherwise the prompts are kept and the negatives padded |
| DiffusersPasses.PromptPassArgs | modules/processing_diffusers.py:339-354 | same error condition; never fails without embeddings when there are negatives; keeps prompts, pads negatives; accepted keywords reach the pipeline |
| DiffusersPasses.BaseArgs | modules/processing_diffusers.py:339-354 | base pass: latents exactly with a VAE, overriding the "np" default; the denoising window reaches the pipeline |
| DiffusersPasses.HiresArgs | modules/processing_diffusers.py:391-406 | hires pass: the image guidance scale (when set) replaces the guidance scale; images and strength reach the pipeline |
| DiffusersPasses.RefinerPrompt | modules/processing_diffusers.py:448-449 | a new list holding the refiner text, else the `i`-th prompt, else IndexError |
| DiffusersPasses.SinglePromptArgs | modules/processing_diffusers.py:446-461 | one prompt and one negative never fail without embeddings; with fixed attention the pipeline receives that prompt; accepted keywords reach the pipeline |
| DiffusersPasses.RefinerArgs | modules/processing_diffusers.py:446-461 | refiner pass for image `i`: IndexError when its prompt or negative prompt is missing, otherwise success without embeddings, the chosen single prompt, and the refiner start as `denoising_start` |

## Left out

- File and directory I/O is not modelled:
  - the style folder walk: the files are a sequence of (relative stem, record) pairs in visiting order;
  - JSON parsing, and files that fail to parse for reasons other than a missing name;
  - directory creation, the legacy CSV loading and migration in the constructor, and logging.
- `Styles.StyleDatabase.Reload`: the final sort of the dictionary by file name is not modelled, because a Dafny map has no order. Only the iteration order of the dictionary depends on it.
- `PyText.IsAlnum`: `str.isalnum` is restricted to ASCII letters and digits. Unicode character categories are not modelled. The whitespace set of `strip` is Python's full set.
- Tensor and model work is foreign to the model:
  - the VAE and TAESD decoders and encoders, `interpolate`, and `hires_resize`;
  - `save_intermediate`, `torch.Generator`, and moving models between devices;
  - the pipeline calls themselves.
  Results and images are opaque values. `taesd_vae_decode`'s use of the enclosing `output` is therefore not modelled.
- `calculate_base_steps` and the step counts of the hires and refiner calls use floor division by floating-point strengths. They reach the model as opaque values (`DiffusersPasses.ForeignValues`), as do `eta`, the guidance rescale and `clip_skip`.
- The pipeline's own denoising loop is foreign. `DiffusersRuntime.DenoiseSteps` only drives the callback the way that loop calls it, one call per step until the callback raises.
- The pause loop of the step callback sleeps while the user interface holds the run. It is timing and concurrency.
- The prompt parser (Compel) is a parameter: what it returns when tried, or `None` when it raises. `inspect.signature` is the `possible` set of the model record. `is_refiner` only feeds the parser.
- The debug copy of the arguments and its log line, the progress-bar configuration, and the removal of `embedding_db` have no effect on the arguments and are left out.
- These are bookkeeping outside the modelled state, and are left out:
  - `extra_generation_params`: sampler options, CFG rescale, Eta, embeddings and LoRA method;
  - the LoRA scale (`cross_attention_kwargs`) and the LoRA unload;
  - the results list;
  - `set_diffuser_pipe`.
- The refiner loop over output images is modelled one image at a time (`DiffusersPasses.RefinerArgs`), not as a loop.
- `DiffusersStages.SamplerToCreate`: a sampler's name is taken to be its key in the sampler map.
- `DiffusersStages.RoundUp8`: `math.ceil(x / 8)` is computed exactly, without the floating-point rounding of sizes beyond 2^53.
- `DiffusersPrompts.FixPrompts`: it requires that no list is passed for both a negative and a positive argument. Every call site respects this; other aliasings are not modelled.
- `DiffusersPrompts.FixPrompts`: on an error, the contents left in the caller's lists are bounded only by the `modifies` frame. The padding already done before the error is not stated.
- Prompt arguments are a string, a list or `None`. Other types that `type(x) is str` would reject are not modelled.
- `DiffusersRuntime.RecompileModel`: the model loader is foreign. The record it leaves in place, possibly none, is a parameter, and its unload and reload calls are recorded as names.
