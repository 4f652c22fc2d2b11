/**
 * A Python list as a mutable object, and the padding idiom the pipeline uses
 * on prompt lists and init-image lists:
 *   while len(xs) < n: xs.append(xs[-1])
 * which raises IndexError when `xs` is empty and `n > 0`.
 */
module PyLists {

  /** The Python exceptions the modelled code can raise. */
  datatype PyError = TypeError | IndexError | AttributeError

  class PyList<T> {
    var items: seq<T>

    constructor (items: seq<T>)
      ensures this.items == items
    {
      this.items := items;
    }

    /** `xs.append(x)`. */
    method Append(x: T)
      modifies this
      ensures items == old(items) + [x]
    {
      items := items + [x];
    }
  }

  /** Padding to length `n` is possible: it needs a last element whenever it
      needs to append anything. */
  predicate CanPad<T>(s: seq<T>, n: int) {
    |s| > 0 || n <= |s|
  }

  /** The list the padding loop leaves behind: one append of the current last
      element per iteration until the length reaches `n`. */
  function Padded<T>(s: seq<T>, n: int): seq<T>
    requires CanPad(s, n)
    decreases n - |s|
  {
    if n <= |s| then s else Padded(s + [s[|s| - 1]], n)
  }

  function Max(a: int, b: int): int {
    if a < b then b else a
  }

  /** The padded list is `max(len(s), n)` long, starts with `s`, and every
      added entry is the last entry of `s`. */
  lemma {:induction false} PaddedShape<T>(s: seq<T>, n: int)
    requires CanPad(s, n)
    ensures |Padded(s, n)| == Max(|s|, n)
    ensures Padded(s, n)[..|s|] == s
    ensures forall i :: |s| <= i < |Padded(s, n)| ==> Padded(s, n)[i] == s[|s| - 1]
    decreases n - |s|
  {
    if n > |s| {
      var t := s + [s[|s| - 1]];
      PaddedShape(t, n);
      var r := Padded(t, n);
      assert r[..|s|] == r[..|t|][..|s|];
    }
  }

  /** Padding twice is padding once to the larger length. */
  lemma {:induction false} PaddedTwice<T>(s: seq<T>, a: int, b: int)
    requires CanPad(s, Max(a, b))
    ensures CanPad(Padded(s, a), b)
    ensures Padded(Padded(s, a), b) == Padded(s, Max(a, b))
    decreases a - |s|
  {
    PaddedShape(s, a);
    if a > |s| {
      PaddedTwice(s + [s[|s| - 1]], a, b);
    } else {
      assert Max(a, b) <= |s| ==> Padded(s, Max(a, b)) == s;
    }
  }

  /** The padding loop on a list object. `ok` is false when it raises
      IndexError, in which case nothing was appended. */
  method PadTo<T>(xs: PyList<T>, n: int) returns (ok: bool)
    modifies xs
    ensures ok == CanPad(old(xs.items), n)
    ensures ok ==> xs.items == Padded(old(xs.items), n)
    ensures !ok ==> xs.items == old(xs.items)
  {
    if !CanPad(xs.items, n) {
      return false;
    }
    while |xs.items| < n
      invariant CanPad(xs.items, n)
      invariant Padded(xs.items, n) == Padded(old(xs.items), n)
      decreases n - |xs.items|
    {
      xs.Append(xs.items[|xs.items| - 1]);
    }
    return true;
  }
}
