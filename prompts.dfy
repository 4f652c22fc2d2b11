/**
 * `fix_prompts`, the normalisation `set_pipeline_args` applies to the four
 * prompt arguments before building a pipeline call: a bare string becomes a
 * one-element list, the negative prompts are padded to the number of prompts,
 * and the secondary prompt lists are padded the same way, each by repeating
 * its last entry. Lists are padded in place, so a caller that passes the same
 * list object twice sees both updates.
 */
module DiffusersPrompts {
  import opened Wrappers
  import opened PyLists

  /** One prompt argument: a `str`, a `list` of `str`, or `None`. */
  datatype PromptArg = Text(text: string) | Texts(list: PyList<string>) | NoPrompts

  function ListsOf(a: PromptArg): set<PyList<string>> {
    if a.Texts? then {a.list} else {}
  }

  /** The argument's value: `None`, or its list of prompts (a string counts
      as the one-element list it is turned into). */
  function Val(a: PromptArg): Option<seq<string>>
    reads ListsOf(a)
  {
    match a
    case Text(s) => Some([s])
    case Texts(l) => Some(l.items)
    case NoPrompts => None
  }

  predicate SameList(a: PromptArg, b: PromptArg) {
    a.Texts? && b.Texts? && a.list == b.list
  }

  /** The aliasing every call site respects: a list passed for a negative
      prompt argument is not also passed for a positive one. Passing the
      prompts list again as `prompts_2`, or the negative list again as
      `negative_prompts_2`, is allowed. */
  predicate SeparateSides(prompts: PromptArg, negatives: PromptArg, prompts2: PromptArg, negatives2: PromptArg) {
    (ListsOf(negatives) + ListsOf(negatives2)) !! (ListsOf(prompts) + ListsOf(prompts2))
  }

  datatype FixedValues = FixedValues(
    prompts: seq<string>,
    negatives: seq<string>,
    prompts2: Option<seq<string>>,
    negatives2: Option<seq<string>>)

  /** What `fix_prompts` computes, on values. `n2IsN` says that the same list
      object was passed as `negative_prompts` and `negative_prompts_2`, in
      which case the second padding lengthens the negative prompts too.
      `len(None)` raises TypeError and `xs[-1]` on an empty list IndexError;
      each step fails before the next one starts. */
  function FixPromptValues(
    p: Option<seq<string>>, n: Option<seq<string>>,
    p2: Option<seq<string>>, n2: Option<seq<string>>,
    n2IsN: bool): Result<FixedValues, PyError>
    requires n2IsN ==> n2 == n
  {
    if p.None? || n.None? then Err(TypeError)
    else if !CanPad(n.value, |p.value|) then Err(IndexError)
    else
      var n1 := Padded(n.value, |p.value|);
      FixSecondaryValues(p.value, n1, p2, if n2IsN then Some(n1) else n2, n2IsN)
  }

  /** The second half of `fix_prompts`, once the negative prompts `n1` cover
      the prompts `p`. `n2` is the value of the secondary negatives at this
      point, which is `n1` itself when they are the same list. */
  function FixSecondaryValues(
    p: seq<string>, n1: seq<string>, p2: Option<seq<string>>, n2: Option<seq<string>>, n2IsN: bool): Result<FixedValues, PyError>
  {
    if p2.Some? && !CanPad(p2.value, |p|) then Err(IndexError)
    else
      var q1 := if p2.Some? then Some(Padded(p2.value, |p|)) else None;
      if n2.None? then Ok(FixedValues(p, n1, q1, None))
      else if q1.None? then Err(TypeError)
      else if !CanPad(n2.value, |q1.value|) then Err(IndexError)
      else
        var m1 := Padded(n2.value, |q1.value|);
        Ok(FixedValues(p, if n2IsN then m1 else n1, q1, Some(m1)))
  }

  /** After a successful fix there is a negative prompt for every prompt; the
      original negative prompts come first, unchanged, and every added one
      repeats the last of them. */
  lemma NegativesCoverPrompts(
    p: Option<seq<string>>, n: Option<seq<string>>,
    p2: Option<seq<string>>, n2: Option<seq<string>>, n2IsN: bool)
    requires n2IsN ==> n2 == n
    requires FixPromptValues(p, n, p2, n2, n2IsN).Ok?
    ensures var r := FixPromptValues(p, n, p2, n2, n2IsN).value;
            && r.prompts == p.value
            && |r.negatives| >= |r.prompts|
            && |n.value| <= |r.negatives| && r.negatives[..|n.value|] == n.value
            && (forall i :: |n.value| <= i < |r.negatives| ==> r.negatives[i] == n.value[|n.value| - 1])
            && (!n2IsN ==> |r.negatives| == Max(|n.value|, |p.value|))
  {
    var N, P := n.value, p.value;
    PaddedShape(N, |P|);
    if n2IsN {
      var q1 := Padded(p2.value, |P|);
      PaddedShape(p2.value, |P|);
      PaddedTwice(N, |P|, |q1|);
      PaddedShape(N, Max(|P|, |q1|));
    }
  }

  /** A secondary prompt list is padded to the number of prompts, keeping its
      own entries and repeating its last one; `None` stays `None`. */
  lemma SecondaryPromptsPadded(
    p: Option<seq<string>>, n: Option<seq<string>>,
    p2: Option<seq<string>>, n2: Option<seq<string>>, n2IsN: bool)
    requires n2IsN ==> n2 == n
    requires FixPromptValues(p, n, p2, n2, n2IsN).Ok?
    ensures var r := FixPromptValues(p, n, p2, n2, n2IsN).value;
            && (p2.None? ==> r.prompts2.None?)
            && (p2.Some? ==>
                  && r.prompts2.Some?
                  && |r.prompts2.value| == Max(|p2.value|, |p.value|)
                  && r.prompts2.value[..|p2.value|] == p2.value
                  && (forall i :: |p2.value| <= i < |r.prompts2.value| ==> r.prompts2.value[i] == p2.value[|p2.value| - 1]))
  {
    if p2.Some? {
      PaddedShape(p2.value, |p.value|);
    }
  }

  /** The value the secondary negatives have when their padding starts: the
      negative prompts already padded when they are the same list. */
  function SecondaryNegativesBefore(p: seq<string>, n: seq<string>, n2: seq<string>, n2IsN: bool): seq<string>
    requires n2IsN ==> CanPad(n, |p|)
  {
    if n2IsN then Padded(n, |p|) else n2
  }

  /** Secondary negative prompts are padded to the number of secondary
      prompts, which is never less than the number of prompts, by repeating
      their last entry; they are only present when secondary prompts are. */
  lemma SecondaryNegativesPadded(
    p: Option<seq<string>>, n: Option<seq<string>>,
    p2: Option<seq<string>>, n2: Option<seq<string>>, n2IsN: bool)
    requires n2IsN ==> n2 == n
    requires FixPromptValues(p, n, p2, n2, n2IsN).Ok?
    ensures var r := FixPromptValues(p, n, p2, n2, n2IsN).value;
            && (n2.None? ==> r.negatives2.None?)
            && (n2.Some? ==>
                  var m0 := SecondaryNegativesBefore(p.value, n.value, n2.value, n2IsN);
                  && r.prompts2.Some? && r.negatives2.Some?
                  && |r.prompts2.value| >= |r.prompts|
                  && |r.negatives2.value| == Max(|m0|, |r.prompts2.value|)
                  && r.negatives2.value[..|m0|] == m0
                  && (forall i :: |m0| <= i < |r.negatives2.value| ==> r.negatives2.value[i] == m0[|m0| - 1])
                  && (n2IsN ==> r.negatives2 == Some(r.negatives)))
  {
    if n2.Some? {
      var P := p.value;
      var q1 := Padded(p2.value, |P|);
      PaddedShape(p2.value, |P|);
      var m0 := if n2IsN then Padded(n.value, |P|) else n2.value;
      PaddedShape(m0, |q1|);
    }
  }

  /** The failures: a missing prompt or negative-prompt argument (`len(None)`),
      nothing to repeat, or secondary negatives without secondary prompts. */
  lemma FixErrors(
    p: Option<seq<string>>, n: Option<seq<string>>,
    p2: Option<seq<string>>, n2: Option<seq<string>>, n2IsN: bool)
    requires n2IsN ==> n2 == n
    ensures p.None? || n.None? ==> FixPromptValues(p, n, p2, n2, n2IsN) == Err(TypeError)
    ensures p.Some? && n.Some? && n.value == [] && |p.value| > 0 ==>
              FixPromptValues(p, n, p2, n2, n2IsN) == Err(IndexError)
    ensures p.Some? && n.Some? && CanPad(n.value, |p.value|) && p2.None? && n2.Some? ==>
              FixPromptValues(p, n, p2, n2, n2IsN) == Err(TypeError)
  {
  }

  /** Non-empty lists for every argument that is present, with secondary
      negatives only beside secondary prompts, always succeed. */
  lemma {:induction false} FixSucceeds(
    p: Option<seq<string>>, n: Option<seq<string>>,
    p2: Option<seq<string>>, n2: Option<seq<string>>, n2IsN: bool)
    requires n2IsN ==> n2 == n
    requires p.Some? && n.Some? && |n.value| > 0
    requires p2.Some? ==> |p2.value| > 0
    requires n2.Some? ==> p2.Some? && |n2.value| > 0
    ensures FixPromptValues(p, n, p2, n2, n2IsN).Ok?
  {
    PaddedShape(n.value, |p.value|);
  }

  /** The base pass passes `prompts` again as `prompts_2` and the negative
      list again as `negative_prompts_2`: both pairs end up equal, the
      negatives padded to the prompts. */
  lemma BaseCallAliases(p: seq<string>, n: seq<string>)
    requires CanPad(n, |p|)
    ensures FixPromptValues(Some(p), Some(n), Some(p), Some(n), true)
            == Ok(FixedValues(p, Padded(n, |p|), Some(p), Some(Padded(n, |p|))))
  {
    PaddedShape(n, |p|);
  }

  /** The refiner passes a single prompt string and no secondary prompts: the
      result is a pair of one-element lists. */
  lemma RefinerCallSingletons(prompt: string, negative: string)
    ensures FixPromptValues(Some([prompt]), Some([negative]), None, None, false)
            == Ok(FixedValues([prompt], [negative], None, None))
  {
  }

  /** A `fix_prompts` result: the prompt and negative lists, and the secondary
      lists or `None`. */
  datatype FixedLists = FixedLists(
    prompts: PyList<string>,
    negatives: PyList<string>,
    prompts2: PromptArg,
    negatives2: PromptArg)

  function Snapshot(f: FixedLists): FixedValues
    reads f.prompts, f.negatives, ListsOf(f.prompts2), ListsOf(f.negatives2)
  {
    FixedValues(f.prompts.items, f.negatives.items, Val(f.prompts2), Val(f.negatives2))
  }

  /** The output list for an argument is the caller's list when one was
      passed, and a new list when a string was. */
  twostate predicate ListFor(a: PromptArg, new l: PyList<string>) {
    (a.Texts? ==> l == a.list) && (a.Text? ==> fresh(l))
  }

  /** One step of `fix_prompts`: a string becomes a new one-element list,
      and a list is padded in place to length `n`; `None` is left alone. */
  method WrapAndPad(a: PromptArg, n: int) returns (r: Result<PromptArg, PyError>)
    modifies ListsOf(a)
    ensures a.NoPrompts? ==> r == Ok(NoPrompts)
    ensures !a.NoPrompts? ==>
              var v := old(Val(a)).value;
              && (CanPad(v, n) ==> r.Ok? && r.value.Texts? && r.value.list.items == Padded(v, n) && ListFor(a, r.value.list))
              && (!CanPad(v, n) ==> r == Err(IndexError))
  {
    var b := a;
    if b.Text? {
      var l := new PyList([b.text]);
      b := Texts(l);
    }
    if b.Texts? {
      var ok := PadTo(b.list, n);
      if !ok {
        return Err(IndexError);
      }
    }
    return Ok(b);
  }

  /** `fix_prompts` on list objects: it does to them what `FixPromptValues`
      says, padding the caller's lists in place. */
  method FixPrompts(prompts: PromptArg, negatives: PromptArg, prompts2: PromptArg, negatives2: PromptArg)
    returns (r: Result<FixedLists, PyError>)
    requires SeparateSides(prompts, negatives, prompts2, negatives2)
    modifies ListsOf(negatives), ListsOf(prompts2), ListsOf(negatives2)
    ensures var spec := old(FixPromptValues(Val(prompts), Val(negatives), Val(prompts2), Val(negatives2), SameList(negatives, negatives2)));
            && r.Err? == spec.Err?
            && (r.Err? ==> r.error == spec.error)
            && (r.Ok? ==> Snapshot(r.value) == spec.value)
    ensures r.Ok? ==>
              && ListFor(prompts, r.value.prompts)
              && ListFor(negatives, r.value.negatives)
              && (prompts2.NoPrompts? <==> r.value.prompts2.NoPrompts?)
              && (r.value.prompts2.Texts? ==> ListFor(prompts2, r.value.prompts2.list))
              && (negatives2.NoPrompts? <==> r.value.negatives2.NoPrompts?)
              && (r.value.negatives2.Texts? ==> ListFor(negatives2, r.value.negatives2.list))
  {
    var P: PyList<string>;
    match prompts {
      case Text(s) => P := new PyList([s]);
      case Texts(l) => P := l;
      case NoPrompts => return Err(TypeError);
    }
    if negatives.NoPrompts? {
      return Err(TypeError);
    }
    var N := WrapAndPad(negatives, |P.items|);
    if N.Err? {
      return Err(N.error);
    }
    r := FixSecondary(P, N.value.list, prompts2, negatives2, SameList(negatives, negatives2));
  }

  /** The second half of `fix_prompts` on list objects. */
  method FixSecondary(P: PyList<string>, N: PyList<string>, prompts2: PromptArg, negatives2: PromptArg, ghost n2IsN: bool)
    returns (r: Result<FixedLists, PyError>)
    requires P != N && N !in ListsOf(prompts2) && P !in ListsOf(negatives2)
    requires ListsOf(prompts2) !! ListsOf(negatives2)
    requires n2IsN <==> negatives2 == Texts(N)
    modifies ListsOf(prompts2), ListsOf(negatives2)
    ensures var spec := old(FixSecondaryValues(P.items, N.items, Val(prompts2), Val(negatives2), n2IsN));
            && r.Err? == spec.Err?
            && (r.Err? ==> r.error == spec.error)
            && (r.Ok? ==> Snapshot(r.value) == spec.value)
    ensures r.Ok? ==>
              && r.value.prompts == P && r.value.negatives == N
              && (prompts2.NoPrompts? <==> r.value.prompts2.NoPrompts?)
              && (r.value.prompts2.Texts? ==> ListFor(prompts2, r.value.prompts2.list))
              && (negatives2.NoPrompts? <==> r.value.negatives2.NoPrompts?)
              && (r.value.negatives2.Texts? ==> ListFor(negatives2, r.value.negatives2.list))
  {
    var Q := WrapAndPad(prompts2, |P.items|);
    if Q.Err? {
      return Err(Q.error);
    }
    if !negatives2.NoPrompts? && Q.value.NoPrompts? {
      return Err(TypeError);
    }
    var M := WrapAndPad(negatives2, if Q.value.Texts? then |Q.value.list.items| else 0);
    if M.Err? {
      return Err(M.error);
    }
    return Ok(FixedLists(P, N, Q.value, M.value));
  }
}
