/**
 * The style database: named pairs of prompt / negative-prompt templates that
 * are merged into a user's prompt, kept in memory as a dictionary from style
 * name to style, and saved one JSON file per style.
 */
module Styles {
  import opened PyText
  import opened Wrappers

  /** The marker a style text may contain to say where the user's prompt goes. */
  const Placeholder := "{prompt}"

  datatype Style = Style(
    name: string,
    prompt: string,
    negativePrompt: string,
    extra: string,
    filename: string,
    preview: string)

  /** The characters the name cleaning deletes before stripping. */
  predicate IsLineControl(c: char) {
    c == '\t' || c == '\r' || c == '\n'
  }

  /** The characters the name cleaning keeps before stripping. */
  predicate KeptInName(c: char) {
    !IsLineControl(c)
  }

  /** The name a `Style` keeps: tabs, CRs and LFs deleted, then whitespace
      stripped from both ends. */
  function CleanName(name: string): string {
    Strip(Filter(name, KeptInName))
  }

  /** A cleaned name holds no tab, CR or LF, has no whitespace at either end,
      and is made of characters of the original name. */
  lemma CleanNameChars(name: string)
    ensures var r := CleanName(name);
            && Stripped(r)
            && forall i :: 0 <= i < |r| ==> !IsLineControl(r[i]) && r[i] in name
  {
    var f := Filter(name, KeptInName);
    var r := Strip(f);
    StripIsInfix(f);
    var i := StripStart(f);
    forall k | 0 <= k < |r| ensures !IsLineControl(r[k]) && r[k] in name {
      assert r[k] == f[i + k];
      assert f[i + k] in multiset(f);
    }
  }

  /** Cleaning loses no character that is not whitespace: each stays as
      often as the name has it. */
  lemma CleanNameKeepsCharacters(name: string)
    ensures forall c :: !IsSpace(c) ==> multiset(CleanName(name))[c] == multiset(name)[c]
  {
    var f := Filter(name, KeptInName);
    FilterCounts(name, KeptInName);
    StripKeepsNonSpace(f);
    forall c | !IsSpace(c) ensures multiset(CleanName(name))[c] == multiset(name)[c] {
      assert KeptInName(c);
    }
  }

  /** Cleaning a cleaned name changes nothing. */
  lemma CleanNameIdempotent(name: string)
    ensures CleanName(CleanName(name)) == CleanName(name)
  {
    var c := CleanName(name);
    CleanNameChars(name);
    FilterKeepsAll(c, KeptInName);
    StrippedFixedPoint(c);
  }

  /** `Style(name, prompt, negative_prompt, extra, filename, preview)`. */
  function NewStyle(name: string, prompt: string, negativePrompt: string,
                    extra: string, filename: string, preview: string): Style
  {
    Style(CleanName(name), prompt, negativePrompt, extra, filename, preview)
  }

  /** `merge_prompts(style_prompt, prompt)`. With a placeholder in the style
      text, every placeholder is replaced by the prompt, neither being stripped;
      otherwise the stripped prompt and the stripped style text, whichever are
      non-empty, are joined by ", ", or by " " when the stripped prompt already
      ends in a comma. */
  function MergePrompts(stylePrompt: string, prompt: string): string
  {
    if Contains(stylePrompt, Placeholder) then ReplaceAll(stylePrompt, Placeholder, prompt)
    else
      var original := Strip(prompt);
      var style := Strip(stylePrompt);
      // `filter(None, (original, style))` joined by the separator
      if original == [] then style
      else if style == [] then original
      else original + (if EndsWith(original, ",") then " " else ", ") + style
  }

  /** With a placeholder, the style text is cut at every placeholder and the
      pieces are glued back together with the prompt, neither being stripped. */
  lemma MergeSubstitutes(stylePrompt: string, prompt: string)
    requires Contains(stylePrompt, Placeholder)
    ensures var pieces := Split(stylePrompt, Placeholder);
            && |pieces| > 1
            && (forall i :: 0 <= i < |pieces| ==> !Contains(pieces[i], Placeholder))
            && MergePrompts(stylePrompt, prompt) == Join(prompt, pieces)
            && Join(Placeholder, pieces) == stylePrompt
  {
    SplitPiecesFree(stylePrompt, Placeholder);
    ReplaceIsJoinOfSplit(stylePrompt, Placeholder, prompt);
    SplitCountsOccurrence(stylePrompt, Placeholder);
    SplitJoinRoundTrip(stylePrompt, Placeholder);
  }

  /** Without a placeholder, the result has no whitespace at either end. */
  lemma MergeStripped(stylePrompt: string, prompt: string)
    requires !Contains(stylePrompt, Placeholder)
    ensures Stripped(MergePrompts(stylePrompt, prompt))
  {
  }

  /** Without a placeholder: an empty (after stripping) prompt leaves the stripped style text. */
  lemma MergeEmptyPrompt(stylePrompt: string, prompt: string)
    requires !Contains(stylePrompt, Placeholder) && Strip(prompt) == []
    ensures MergePrompts(stylePrompt, prompt) == Strip(stylePrompt)
  {
  }

  /** Without a placeholder: an empty (after stripping) style text leaves the stripped prompt. */
  lemma MergeEmptyStyle(stylePrompt: string, prompt: string)
    requires !Contains(stylePrompt, Placeholder) && Strip(stylePrompt) == []
    ensures MergePrompts(stylePrompt, prompt) == Strip(prompt)
  {
  }

  /** Without a placeholder and with both parts present, the result is the two
      stripped parts with the separator in between. */
  lemma MergeJoinsBoth(stylePrompt: string, prompt: string)
    requires !Contains(stylePrompt, Placeholder)
    requires Strip(prompt) != [] && Strip(stylePrompt) != []
    ensures MergePrompts(stylePrompt, prompt)
            == Strip(prompt) + (if EndsWith(Strip(prompt), ",") then " " else ", ") + Strip(stylePrompt)
  {
  }

  /** Without a placeholder, whitespace around the prompt makes no difference. */
  lemma MergeIgnoresOuterWhitespace(stylePrompt: string, prompt: string)
    requires !Contains(stylePrompt, Placeholder)
    ensures MergePrompts(stylePrompt, prompt) == MergePrompts(stylePrompt, Strip(prompt))
  {
    StripIdempotent(prompt);
  }

  /** A style text without a placeholder never changes the prompt it is given
      verbatim: the prompt always appears, stripped, at the front. */
  lemma MergeKeepsPromptInFront(stylePrompt: string, prompt: string)
    requires !Contains(stylePrompt, Placeholder)
    ensures var r := MergePrompts(stylePrompt, prompt);
            |Strip(prompt)| <= |r| && r[..|Strip(prompt)|] == Strip(prompt)
  {
    var o, st := Strip(prompt), Strip(stylePrompt);
    var r := MergePrompts(stylePrompt, prompt);
    if o == [] {
      assert r[..0] == [];
    } else if st == [] {
      assert r == o;
    } else {
      var sep := if EndsWith(o, ",") then " " else ", ";
      MergeJoinsBoth(stylePrompt, prompt);
      assert r == o + sep + st;
      ConcatAssoc(o, sep, st);
      PrefixOfConcat(o, sep + st);
    }
  }

  /** `apply_styles_to_prompt(prompt, styles)` as a left fold of `MergePrompts`
      over the style texts, in list order. */
  function FoldStyles(prompt: string, styles: seq<string>): string
    decreases |styles|
  {
    if styles == [] then prompt else FoldStyles(MergePrompts(styles[0], prompt), styles[1..])
  }

  /** Folding over a concatenation folds over the first list, then the second. */
  lemma {:induction false} FoldStylesAppend(prompt: string, a: seq<string>, b: seq<string>)
    ensures FoldStyles(prompt, a + b) == FoldStyles(FoldStyles(prompt, a), b)
    decreases |a|
  {
    if a != [] {
      assert (a + b)[1..] == a[1..] + b;
      FoldStylesAppend(MergePrompts(a[0], prompt), a[1..], b);
    } else {
      assert a + b == b;
    }
  }

  /** The fold law: one more style is merged into the result of the others. */
  lemma FoldStylesSnoc(prompt: string, styles: seq<string>, t: string)
    ensures FoldStyles(prompt, styles + [t]) == MergePrompts(t, FoldStyles(prompt, styles))
  {
    FoldStylesAppend(prompt, styles, [t]);
  }

  /** The fold law on prefixes, as a loop over the list uses it. */
  lemma FoldStylesPrefix(prompt: string, styles: seq<string>, i: nat)
    requires i < |styles|
    ensures FoldStyles(prompt, styles[..i + 1]) == MergePrompts(styles[i], FoldStyles(prompt, styles[..i]))
  {
    var pre, t := styles[..i], styles[i];
    assert styles[..i + 1] == pre + [t];
    FoldStylesSnoc(prompt, pre, t);
  }

  /** A non-empty run of empty style texts reduces the prompt to its stripped form. */
  lemma {:induction false} FoldEmptyStyles(prompt: string, styles: seq<string>)
    requires |styles| > 0
    requires forall i :: 0 <= i < |styles| ==> styles[i] == []
    ensures FoldStyles(prompt, styles) == Strip(prompt)
    decreases |styles|
  {
    assert !Contains(styles[0], Placeholder);
    var m := MergePrompts(styles[0], prompt);
    assert m == Strip(prompt);
    if |styles| > 1 {
      FoldEmptyStyles(m, styles[1..]);
      StripIdempotent(prompt);
    }
  }

  /** The module-level `apply_styles_to_prompt`: the loop reassigning `prompt`. */
  method ApplyStyles(prompt: string, styles: seq<string>) returns (r: string)
    ensures r == FoldStyles(prompt, styles)
    ensures styles == [] ==> r == prompt
  {
    r := prompt;
    var i := 0;
    while i < |styles|
      invariant i <= |styles|
      invariant r == FoldStyles(prompt, styles[..i])
    {
      FoldStylesPrefix(prompt, styles, i);
      r := MergePrompts(styles[i], r);
      i := i + 1;
    }
    assert styles[..|styles|] == styles;
  }

  // ---------------------------------------------------------------------------
  // Saving and loading one style

  /** The contents of a style's JSON file: every key may be missing when read. */
  datatype StyleRecord = StyleRecord(
    name: Option<string>,
    prompt: Option<string>,
    negative: Option<string>,
    extra: Option<string>,
    preview: Option<string>)

  function GetOr(o: Option<string>, default: string): string {
    if o.Some? then o.value else default
  }

  /** The record `save_styles` writes for the style stored under `name`:
      `extra` and `preview` are always written empty. */
  function SaveRecord(name: string, style: Style): StyleRecord {
    StyleRecord(Some(name), Some(style.prompt), Some(style.negativePrompt), Some(""), Some(""))
  }

  /** Loading one file during `reload`: a record without a name fails (the
      error is logged and the file skipped); missing optional keys default to "".
      `filename` is the file's path relative to the styles folder, without
      extension. */
  function LoadStyle(rec: StyleRecord, filename: string): (r: Option<Style>)
    ensures r.Some? <==> rec.name.Some?
    ensures r.Some? ==> r.value.name == CleanName(rec.name.value) && r.value.filename == filename
  {
    if rec.name.None? then None
    else Some(NewStyle(rec.name.value, GetOr(rec.prompt, ""), GetOr(rec.negative, ""),
                       GetOr(rec.extra, ""), filename, GetOr(rec.preview, "")))
  }

  /** Saving then loading one style keeps its prompt and negative prompt, cleans
      its name, and loses its extra and preview text. */
  lemma SaveLoadRoundTrip(name: string, style: Style, filename: string)
    ensures LoadStyle(SaveRecord(name, style), filename)
            == Some(Style(CleanName(name), style.prompt, style.negativePrompt, "", filename, ""))
  {
  }

  /** Characters a saved file name keeps besides alphanumerics. */
  predicate KeepChar(c: char) {
    IsAlnum(c) || c == ' ' || c == '.' || c == '_'
  }

  /** The file-name stem `save_styles` derives from a style name: the kept
      characters, with trailing whitespace removed. */
  function StyleFileStem(name: string): string {
    RStrip(Filter(name, KeepChar))
  }

  /** A stem holds only alphanumerics, ' ', '.' and '_', does not end in
      whitespace, and uses no character more often than the name does. */
  lemma StyleFileStemChars(name: string)
    ensures var r := StyleFileStem(name);
            && (forall i :: 0 <= i < |r| ==> KeepChar(r[i]))
            && (r == [] || !IsSpace(r[|r| - 1]))
            && multiset(r) <= multiset(name)
  {
    var f := Filter(name, KeepChar);
    var r := RStrip(f);
    assert f == r + f[|r|..];
    assert multiset(f) == multiset(r) + multiset(f[|r|..]);
  }

  /** The stem of a stem is itself. */
  lemma StyleFileStemIdempotent(name: string)
    ensures StyleFileStem(StyleFileStem(name)) == StyleFileStem(name)
  {
    var s := StyleFileStem(name);
    StyleFileStemChars(name);
    FilterKeepsAll(s, KeepChar);
  }

  /** The stem keeps every alphanumeric, '.' and '_' of the name, as often
      as the name has it. */
  lemma StyleFileStemKeepsCharacters(name: string)
    ensures forall c :: KeepChar(c) && !IsSpace(c) ==> multiset(StyleFileStem(name))[c] == multiset(name)[c]
  {
    FilterCounts(name, KeepChar);
    RStripKeepsNonSpace(Filter(name, KeepChar));
  }

  /** A character the filter drops makes no difference to the stem, wherever
      it stands: the remaining characters keep their order. */
  lemma StyleFileStemIgnoresDropped(before: string, c: char, after: string)
    requires !KeepChar(c)
    ensures StyleFileStem(before + [c] + after) == StyleFileStem(before + after)
  {
    FilterAppend(before + [c], after, KeepChar);
    FilterAppend(before, [c], KeepChar);
    FilterAppend(before, after, KeepChar);
    assert Filter([c], KeepChar) == [] by { FilterCons(c, [], KeepChar); }
    assert Filter(before, KeepChar) + [] == Filter(before, KeepChar);
  }

  /** The saved file's name. */
  function StyleFileName(name: string): string {
    StyleFileStem(name) + ".json"
  }

  /** The file name is the stem followed by ".json"; the stem comes back by
      removing the extension. */
  lemma StyleFileNameShape(name: string)
    ensures var r := StyleFileName(name);
            EndsWith(r, ".json") && r[..|r| - 5] == StyleFileStem(name)
  {
  }

  /** Two names can share a file: the later save overwrites the earlier one. */
  lemma StyleFileNamesCollide()
    ensures "a?" != "a" && StyleFileName("a?") == StyleFileName("a")
  {
    assert Filter("a?", KeepChar) == "a" by {
      assert "a?"[1..] == "?";
      assert Filter("?", KeepChar) == [] by { assert "?"[1..] == []; }
    }
    assert Filter("a", KeepChar) == "a" by { assert "a"[1..] == []; }
  }

  /** No two names of `names` share a file. */
  ghost predicate DistinctFileNames(names: set<string>) {
    forall a, b :: a in names && b in names && a != b ==> StyleFileName(a) != StyleFileName(b)
  }

  // ---------------------------------------------------------------------------
  // Loading a whole folder

  /** One style file found by `reload`: its relative stem and its contents. */
  datatype StyleFile = StyleFile(stem: string, record: StyleRecord)

  /** What loading one file does to the dictionary: a file without a name is
      skipped, otherwise its style is stored under the name it carries. */
  function AddFile(m: map<string, Style>, f: StyleFile): map<string, Style> {
    match LoadStyle(f.record, f.stem)
    case None => m
    case Some(st) => m[f.record.name.value := st]
  }

  /** The dictionary `reload` builds from the files in the order it visits them:
      a later file with the same name replaces an earlier one. */
  function LoadAll(files: seq<StyleFile>): map<string, Style>
    decreases |files|
  {
    if files == [] then map[] else AddFile(LoadAll(files[..|files| - 1]), files[|files| - 1])
  }

  /** One more file on top of a prefix: the step `reload`'s loop takes. */
  lemma LoadAllStep(files: seq<StyleFile>, i: nat)
    requires i < |files|
    ensures LoadAll(files[..i + 1]) == AddFile(LoadAll(files[..i]), files[i])
  {
    var pre := files[..i];
    assert files[..i + 1][..i] == pre;
  }

  /** The names the records of `files` carry. */
  function RecordNames(files: seq<StyleFile>): set<string>
    decreases |files|
  {
    if files == [] then {}
    else
      var f := files[|files| - 1];
      RecordNames(files[..|files| - 1]) + (if f.record.name.Some? then {f.record.name.value} else {})
  }

  /** Every file of `files` holds the record `save_styles` wrote for the entry of
      `styles` that the record names. */
  ghost predicate SavedFrom(files: seq<StyleFile>, styles: map<string, Style>) {
    forall i :: 0 <= i < |files| ==> SavedRecordOf(files[i].record, styles)
  }

  ghost predicate SavedRecordOf(rec: StyleRecord, styles: map<string, Style>) {
    rec.name.Some? && rec.name.value in styles && rec == SaveRecord(rec.name.value, styles[rec.name.value])
  }

  /** Reloading saved files gives back, for every name they hold, the saved
      prompt and negative prompt under the same key, with the name cleaned. */
  lemma ReloadSavedFiles(files: seq<StyleFile>, styles: map<string, Style>)
    requires SavedFrom(files, styles)
    ensures var m := LoadAll(files);
            && m.Keys == RecordNames(files)
            && forall n :: n in m ==>
                 n in styles && m[n].name == CleanName(n)
                 && m[n].prompt == styles[n].prompt
                 && m[n].negativePrompt == styles[n].negativePrompt
  {
    ReloadSavedKeys(files, styles);
    ReloadSavedValues(files, styles);
  }

  lemma {:induction false} SavedFromInit(files: seq<StyleFile>, styles: map<string, Style>)
    requires |files| > 0 && SavedFrom(files, styles)
    ensures SavedFrom(files[..|files| - 1], styles)
    ensures SavedRecordOf(files[|files| - 1].record, styles)
  {
    var init := files[..|files| - 1];
    forall i | 0 <= i < |init| ensures SavedRecordOf(init[i].record, styles) {
      assert init[i] == files[i];
    }
  }

  lemma {:induction false} ReloadSavedKeys(files: seq<StyleFile>, styles: map<string, Style>)
    requires SavedFrom(files, styles)
    ensures LoadAll(files).Keys == RecordNames(files)
    decreases |files|
  {
    if files != [] {
      SavedFromInit(files, styles);
      ReloadSavedKeys(files[..|files| - 1], styles);
    }
  }

  lemma {:induction false} ReloadSavedValues(files: seq<StyleFile>, styles: map<string, Style>)
    requires SavedFrom(files, styles)
    ensures var m := LoadAll(files);
            forall n :: n in m ==>
              n in styles && m[n].name == CleanName(n)
              && m[n].prompt == styles[n].prompt
              && m[n].negativePrompt == styles[n].negativePrompt
    decreases |files|
  {
    if files != [] {
      var init := files[..|files| - 1];
      SavedFromInit(files, styles);
      ReloadSavedValues(init, styles);
      AddSavedFile(LoadAll(init), files[|files| - 1], styles);
    }
  }

  /** A file that carries a name stores the style it loads under that name
      and leaves every other entry as it was. */
  lemma AddFileLoaded(m: map<string, Style>, f: StyleFile)
    requires f.record.name.Some?
    ensures var m' := AddFile(m, f);
            && f.record.name.value in m' && Some(m'[f.record.name.value]) == LoadStyle(f.record, f.stem)
            && (forall n :: n in m ==> n in m')
            && forall n :: n in m' && n != f.record.name.value ==> n in m && m'[n] == m[n]
  {
  }

  /** Loading one saved file keeps every entry holding what was saved under its key. */
  lemma AddSavedFile(m: map<string, Style>, f: StyleFile, styles: map<string, Style>)
    requires SavedRecordOf(f.record, styles)
    requires forall n :: n in m ==>
               n in styles && m[n].name == CleanName(n)
               && m[n].prompt == styles[n].prompt
               && m[n].negativePrompt == styles[n].negativePrompt
    ensures var m' := AddFile(m, f);
            forall n :: n in m' ==>
              n in styles && m'[n].name == CleanName(n)
              && m'[n].prompt == styles[n].prompt
              && m'[n].negativePrompt == styles[n].negativePrompt
  {
    var nm := f.record.name.value;
    SaveLoadRoundTrip(nm, styles[nm], f.stem);
    var st := Style(CleanName(nm), styles[nm].prompt, styles[nm].negativePrompt, "", f.stem, "");
    var m' := AddFile(m, f);
    assert f.record == SaveRecord(nm, styles[nm]);
    assert LoadStyle(f.record, f.stem) == Some(st);
    AddFileLoaded(m, f);
    forall n | n in m'
      ensures n in styles && m'[n].name == CleanName(n)
              && m'[n].prompt == styles[n].prompt && m'[n].negativePrompt == styles[n].negativePrompt
    {
      if n == nm {
        assert m'[n] == st;
      } else {
        assert n in m && m'[n] == m[n];
      }
    }
  }

  // ---------------------------------------------------------------------------
  // The database

  class StyleDatabase {
    /** The style returned for unknown names. */
    const noStyle: Style
    /** Style name -> style, as stored by the loaders. */
    var styles: map<string, Style>

    /** The fallback style has an empty prompt and an empty negative prompt. */
    ghost predicate Valid()
      reads this
    {
      noStyle.prompt == [] && noStyle.negativePrompt == []
    }

    /** `StyleDatabase(opts)`, without the folder creation and legacy CSV migration. */
    constructor ()
      ensures Valid() && styles == map[]
      ensures noStyle == NewStyle("None", "", "", "", "", "")
    {
      noStyle := NewStyle("None", "", "", "", "", "");
      styles := map[];
    }

    /** `self.styles.get(name, self.no_style)`. */
    function Lookup(name: string): (s: Style)
      reads this
      requires Valid()
      ensures name !in styles ==> s.prompt == [] && s.negativePrompt == []
      ensures name in styles ==> s == styles[name]
    {
      if name in styles then styles[name] else noStyle
    }

    /** `get_style_prompts`: one prompt per requested name, in order, "" for unknown names. */
    function GetStylePrompts(names: seq<string>): (r: seq<string>)
      reads this
      requires Valid()
      ensures |r| == |names|
      ensures forall i :: 0 <= i < |names| ==>
                r[i] == (if names[i] in styles then styles[names[i]].prompt else [])
    {
      seq(|names|, i reads this requires 0 <= i < |names| && Valid() => Lookup(names[i]).prompt)
    }

    /** `get_negative_style_prompts`: as above, for the negative prompts. */
    function GetNegativeStylePrompts(names: seq<string>): (r: seq<string>)
      reads this
      requires Valid()
      ensures |r| == |names|
      ensures forall i :: 0 <= i < |names| ==>
                r[i] == (if names[i] in styles then styles[names[i]].negativePrompt else [])
    {
      seq(|names|, i reads this requires 0 <= i < |names| && Valid() => Lookup(names[i]).negativePrompt)
    }

    /** `StyleDatabase.apply_styles_to_prompt`. */
    method ApplyStylesToPrompt(prompt: string, names: seq<string>) returns (r: string)
      requires Valid()
      ensures r == FoldStyles(prompt, GetStylePrompts(names))
    {
      r := ApplyStyles(prompt, GetStylePrompts(names));
    }

    /** `StyleDatabase.apply_negative_styles_to_prompt`. */
    method ApplyNegativeStylesToPrompt(prompt: string, names: seq<string>) returns (r: string)
      requires Valid()
      ensures r == FoldStyles(prompt, GetNegativeStylePrompts(names))
    {
      r := ApplyStyles(prompt, GetNegativeStylePrompts(names));
    }

    /** `reload`: clear the dictionary, then add the style of every file found,
        in the order the folder walk yields them. */
    method Reload(files: seq<StyleFile>)
      requires Valid()
      modifies this
      ensures Valid() && styles == LoadAll(files)
    {
      styles := map[];
      var i := 0;
      while i < |files|
        invariant i <= |files|
        invariant Valid() && styles == LoadAll(files[..i])
      {
        LoadAllStep(files, i);
        var f := files[i];
        var loaded := LoadStyle(f.record, f.stem);
        if loaded.Some? {
          styles := styles[f.record.name.value := loaded.value];
        }
        assert styles == AddFile(LoadAll(files[..i]), f);
        i := i + 1;
      }
      assert files[..|files|] == files;
    }

    /** `save_styles`: the files written, file name -> contents. One file per
        style; when two names map to the same file name the later write wins. */
    method SaveStyles() returns (written: map<string, StyleRecord>)
      ensures written.Keys == (set n | n in styles :: StyleFileName(n))
      ensures forall fn :: fn in written ==>
                exists n :: n in styles && StyleFileName(n) == fn && written[fn] == SaveRecord(n, styles[n])
      ensures DistinctFileNames(styles.Keys) ==>
                forall n :: n in styles ==> written[StyleFileName(n)] == SaveRecord(n, styles[n])
    {
      written := map[];
      var todo := styles.Keys;
      while todo != {}
        invariant todo <= styles.Keys
        invariant written.Keys == (set n | n in styles.Keys - todo :: StyleFileName(n))
        invariant forall fn :: fn in written ==>
                    exists n :: n in styles.Keys - todo && StyleFileName(n) == fn && written[fn] == SaveRecord(n, styles[n])
        decreases todo
      {
        var name :| name in todo;
        written := written[StyleFileName(name) := SaveRecord(name, styles[name])];
        todo := todo - {name};
      }
      if DistinctFileNames(styles.Keys) {
        forall n | n in styles ensures written[StyleFileName(n)] == SaveRecord(n, styles[n]) {
          var fn := StyleFileName(n);
          var m :| m in styles && StyleFileName(m) == fn && written[fn] == SaveRecord(m, styles[m]);
          assert m == n;
        }
      }
    }
  }

  /** Asking only for unknown names gives the stripped prompt, not the original. */
  lemma ApplyUnknownStyles(db: StyleDatabase, prompt: string, names: seq<string>)
    requires db.Valid()
    requires |names| > 0 && forall i :: 0 <= i < |names| ==> names[i] !in db.styles
    ensures FoldStyles(prompt, db.GetStylePrompts(names)) == Strip(prompt)
    ensures FoldStyles(prompt, db.GetNegativeStylePrompts(names)) == Strip(prompt)
  {
    FoldEmptyStyles(prompt, db.GetStylePrompts(names));
    FoldEmptyStyles(prompt, db.GetNegativeStylePrompts(names));
  }
}
