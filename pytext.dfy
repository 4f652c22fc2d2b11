/**
 * The handful of Python `str` operations the style database and the prompt
 * merger rely on: `strip`/`lstrip`/`rstrip` with Python's default whitespace
 * set, `in` (substring test), `replace`, `split`/`join`, `endswith`, and the
 * character filters written as comprehensions or `re.sub` in the source.
 * Strings are sequences of Unicode code points.
 */
module PyText {

  /** The characters Python's `str.isspace()` accepts, which are the ones
      `str.strip()` with no argument removes. */
  predicate IsSpace(c: char) {
    || c == ' '
    || ('\t' <= c <= '\r')
    || ('\U{1c}' <= c <= '\U{1f}')
    || c == '\U{85}' || c == '\U{a0}' || c == '\U{1680}'
    || ('\U{2000}' <= c <= '\U{200a}')
    || c == '\U{2028}' || c == '\U{2029}' || c == '\U{202f}'
    || c == '\U{205f}' || c == '\U{3000}'
  }

  /** `str.isalnum()` restricted to ASCII letters and digits. */
  predicate IsAlnum(c: char) {
    ('a' <= c <= 'z') || ('A' <= c <= 'Z') || ('0' <= c <= '9')
  }

  ghost predicate AllSpace(s: string) {
    forall i :: 0 <= i < |s| ==> IsSpace(s[i])
  }

  /** Neither end of `s` is whitespace: what `strip()` guarantees. */
  predicate Stripped(s: string) {
    s == [] || (!IsSpace(s[0]) && !IsSpace(s[|s| - 1]))
  }

  /** `s.lstrip()`: the longest suffix of `s` that does not start with whitespace. */
  function LStrip(s: string): (r: string)
    ensures |r| <= |s| && r == s[|s| - |r|..]
    ensures r == [] || !IsSpace(r[0])
  {
    if |s| > 0 && IsSpace(s[0]) then LStrip(s[1..]) else s
  }

  /** `s.rstrip()`: the longest prefix of `s` that does not end in whitespace. */
  function RStrip(s: string): (r: string)
    ensures |r| <= |s| && r == s[..|r|]
    ensures r == [] || !IsSpace(r[|r| - 1])
  {
    if |s| > 0 && IsSpace(s[|s| - 1]) then RStrip(s[..|s| - 1]) else s
  }

  /** `s.strip()`. */
  function Strip(s: string): (r: string)
    ensures |r| <= |s|
    ensures Stripped(r)
  {
    RStrip(LStrip(s))
  }

  /** What `lstrip` removes is whitespace. */
  lemma {:induction false} LStripDropsSpace(s: string)
    ensures AllSpace(s[..|s| - |LStrip(s)|])
    decreases |s|
  {
    if |s| > 0 && IsSpace(s[0]) {
      LStripDropsSpace(s[1..]);
      var k := |s| - |LStrip(s)|;
      forall j | 0 <= j < k ensures IsSpace(s[j]) {
        if j > 0 { assert s[j] == s[1..][..k - 1][j - 1]; }
      }
    }
  }

  /** What `rstrip` removes is whitespace. */
  lemma {:induction false} RStripDropsSpace(s: string)
    ensures AllSpace(s[|RStrip(s)|..])
    decreases |s|
  {
    if |s| > 0 && IsSpace(s[|s| - 1]) {
      var t := s[..|s| - 1];
      RStripDropsSpace(t);
      var k := |RStrip(s)|;
      forall j | k <= j < |s| ensures IsSpace(s[j]) {
        if j < |s| - 1 { assert s[j] == t[k..][j - k]; }
      }
    }
  }

  /** Where the result of `strip()` starts in `s`. */
  function StripStart(s: string): nat {
    |s| - |LStrip(s)|
  }

  /** `strip()` cuts an infix out of `s`, removing only whitespace on either side. */
  lemma StripIsInfix(s: string)
    ensures StripStart(s) + |Strip(s)| <= |s|
    ensures Strip(s) == s[StripStart(s)..StripStart(s) + |Strip(s)|]
    ensures AllSpace(s[..StripStart(s)])
    ensures AllSpace(s[StripStart(s) + |Strip(s)|..])
  {
    var l := LStrip(s);
    var i := StripStart(s);
    var r := RStrip(l);
    assert r == Strip(s);
    LStripDropsSpace(s);
    RStripDropsSpace(l);
    assert l == s[i..];
    assert s[i..i + |r|] == l[..|r|];
    assert s[i + |r|..] == l[|r|..];
  }

  /** An all-whitespace string holds no other character. */
  lemma {:induction false} AllSpaceHasNoOther(s: string, c: char)
    requires AllSpace(s) && !IsSpace(c)
    ensures multiset(s)[c] == 0
    decreases |s|
  {
    if s != [] {
      assert s == [s[0]] + s[1..];
      assert AllSpace(s[1..]) by {
        forall j | 0 <= j < |s[1..]| ensures IsSpace(s[1..][j]) { assert s[1..][j] == s[j + 1]; }
      }
      AllSpaceHasNoOther(s[1..], c);
    }
  }

  /** `strip()` keeps every character that is not whitespace, as often as
      the input has it. */
  lemma StripKeepsNonSpace(s: string)
    ensures forall c :: !IsSpace(c) ==> multiset(Strip(s))[c] == multiset(s)[c]
  {
    StripIsInfix(s);
    var i := StripStart(s);
    var r := Strip(s);
    var pre, suf := s[..i], s[i + |r|..];
    assert s == pre + r + suf;
    forall c | !IsSpace(c) ensures multiset(r)[c] == multiset(s)[c] {
      AllSpaceHasNoOther(pre, c);
      AllSpaceHasNoOther(suf, c);
    }
  }

  /** `rstrip()` keeps every character that is not whitespace. */
  lemma RStripKeepsNonSpace(s: string)
    ensures forall c :: !IsSpace(c) ==> multiset(RStrip(s))[c] == multiset(s)[c]
  {
    RStripDropsSpace(s);
    var r := RStrip(s);
    var suf := s[|r|..];
    assert s == r + suf;
    forall c | !IsSpace(c) ensures multiset(r)[c] == multiset(s)[c] {
      AllSpaceHasNoOther(suf, c);
    }
  }

  /** Stripping a string that already has no whitespace at either end changes nothing. */
  lemma StrippedFixedPoint(s: string)
    requires Stripped(s)
    ensures Strip(s) == s
  {
  }

  /** `strip()` is idempotent. */
  lemma StripIdempotent(s: string)
    ensures Strip(Strip(s)) == Strip(s)
  {
    StrippedFixedPoint(Strip(s));
  }

  /** ...and yields the empty string exactly for all-whitespace input. */
  lemma StripEmptyIff(s: string)
    ensures Strip(s) == [] <==> AllSpace(s)
  {
    StripIsInfix(s);
    var i := StripStart(s);
    if Strip(s) == [] {
      assert LStrip(s) == [];
      assert s[..i] == s;
    }
  }

  /** `s.endswith(suffix)`. */
  predicate EndsWith(s: string, suffix: string) {
    |suffix| <= |s| && s[|s| - |suffix|..] == suffix
  }

  /** `pat` occurs in `s` starting at index `i`. */
  predicate OccursAt(s: string, pat: string, i: int) {
    0 <= i && i + |pat| <= |s| && s[i..i + |pat|] == pat
  }

  /** Python's `pat in s`, as a left-to-right scan. */
  predicate Contains(s: string, pat: string)
    decreases |s|
  {
    |pat| <= |s| && (s[..|pat|] == pat || Contains(s[1..], pat))
  }

  /** The scan finds `pat` exactly when it occurs somewhere in `s`. */
  lemma {:induction false} ContainsIffOccurs(s: string, pat: string)
    ensures Contains(s, pat) <==> exists i :: OccursAt(s, pat, i)
    decreases |s|
  {
    if |s| < |pat| {
      assert forall i :: !OccursAt(s, pat, i);
    } else if s[..|pat|] == pat {
      assert OccursAt(s, pat, 0);
    } else {
      ContainsIffOccurs(s[1..], pat);
      if Contains(s[1..], pat) {
        var i :| OccursAt(s[1..], pat, i);
        assert s[i + 1..i + 1 + |pat|] == s[1..][i..i + |pat|];
        assert OccursAt(s, pat, i + 1);
      } else {
        forall i | OccursAt(s, pat, i) ensures false {
          assert i != 0;
          assert s[1..][i - 1..i - 1 + |pat|] == s[i..i + |pat|];
          assert OccursAt(s[1..], pat, i - 1);
        }
      }
    }
  }

  /** `s.replace(pat, rep)`: every non-overlapping occurrence of `pat`, found
      from left to right, is replaced by `rep`. */
  function ReplaceAll(s: string, pat: string, rep: string): string
    requires |pat| > 0
    decreases |s|
  {
    if |s| < |pat| then s
    else if s[..|pat|] == pat then rep + ReplaceAll(s[|pat|..], pat, rep)
    else [s[0]] + ReplaceAll(s[1..], pat, rep)
  }

  /** `s.split(pat)`: the pieces between the occurrences `ReplaceAll` finds.
      There is always one piece more than there are occurrences, and the first
      piece is a prefix of `s` in which `pat` does not occur. */
  function Split(s: string, pat: string): (r: seq<string>)
    requires |pat| > 0
    ensures |r| >= 1
    ensures |r[0]| <= |s| && r[0] == s[..|r[0]|]
    ensures !Contains(r[0], pat)
    decreases |s|
  {
    if |s| < |pat| then [s]
    else if s[..|pat|] == pat then [[]] + Split(s[|pat|..], pat)
    else
      var t := Split(s[1..], pat);
      var head := [s[0]] + t[0];
      assert head == s[..|head|];
      assert |head| >= |pat| ==> head[..|pat|] == s[..|pat|];
      [head] + t[1..]
  }

  /** No piece of `s.split(pat)` contains `pat`: the split cuts at every
      occurrence, not just the first. */
  lemma {:induction false} SplitPiecesFree(s: string, pat: string)
    requires |pat| > 0
    ensures forall i :: 0 <= i < |Split(s, pat)| ==> !Contains(Split(s, pat)[i], pat)
    decreases |s|
  {
    if |s| < |pat| {
    } else if s[..|pat|] == pat {
      var rest := Split(s[|pat|..], pat);
      SplitPiecesFree(s[|pat|..], pat);
      assert Split(s, pat) == [[]] + rest;
    } else {
      var t := Split(s[1..], pat);
      SplitPiecesFree(s[1..], pat);
      var r := Split(s, pat);
      assert r == [[s[0]] + t[0]] + t[1..];
      forall i | 1 <= i < |r| ensures !Contains(r[i], pat) {
        assert r[i] == t[i];
      }
    }
  }

  /** `sep.join(parts)`. */
  function Join(sep: string, parts: seq<string>): string
    requires |parts| >= 1
  {
    if |parts| == 1 then parts[0] else parts[0] + sep + Join(sep, parts[1..])
  }

  /** Python's `s.replace(pat, rep) == rep.join(s.split(pat))`. */
  lemma {:induction false} ReplaceIsJoinOfSplit(s: string, pat: string, rep: string)
    requires |pat| > 0
    ensures ReplaceAll(s, pat, rep) == Join(rep, Split(s, pat))
    decreases |s|
  {
    if |s| < |pat| {
    } else if s[..|pat|] == pat {
      var rest := s[|pat|..];
      ReplaceIsJoinOfSplit(rest, pat, rep);
      JoinCons(rep, [], Split(rest, pat));
    } else {
      var t := Split(s[1..], pat);
      ReplaceIsJoinOfSplit(s[1..], pat, rep);
      assert Split(s, pat) == [[s[0]] + t[0]] + t[1..];
      JoinExtendsHead(rep, s[0], t);
    }
  }

  lemma JoinCons(sep: string, head: string, rest: seq<string>)
    requires |rest| >= 1
    ensures Join(sep, [head] + rest) == head + sep + Join(sep, rest)
  {
    assert ([head] + rest)[1..] == rest;
  }

  /** Putting a character in front of the first piece puts it in front of the join. */
  lemma JoinExtendsHead(sep: string, c: char, parts: seq<string>)
    requires |parts| >= 1
    ensures Join(sep, [[c] + parts[0]] + parts[1..]) == [c] + Join(sep, parts)
  {
    var head := [c] + parts[0];
    if |parts| > 1 {
      JoinCons(sep, head, parts[1..]);
      JoinCons(sep, parts[0], parts[1..]);
      assert [parts[0]] + parts[1..] == parts;
    } else {
      assert [head] + parts[1..] == [head];
    }
  }

  /** Replacing `pat` by itself gives back the original string; together with
      `ReplaceIsJoinOfSplit` this is the round trip `pat.join(s.split(pat)) == s`. */
  lemma {:induction false} ReplaceWithSelf(s: string, pat: string)
    requires |pat| > 0
    ensures ReplaceAll(s, pat, pat) == s
    decreases |s|
  {
    if |s| < |pat| {
    } else if s[..|pat|] == pat {
      ReplaceWithSelf(s[|pat|..], pat);
      assert s == s[..|pat|] + s[|pat|..];
    } else {
      ReplaceWithSelf(s[1..], pat);
      assert s == [s[0]] + s[1..];
    }
  }

  lemma SplitJoinRoundTrip(s: string, pat: string)
    requires |pat| > 0
    ensures Join(pat, Split(s, pat)) == s
  {
    ReplaceIsJoinOfSplit(s, pat, pat);
    ReplaceWithSelf(s, pat);
  }

  /** `s.split(pat)` has more than one piece exactly when `pat in s`. */
  lemma {:induction false} SplitCountsOccurrence(s: string, pat: string)
    requires |pat| > 0
    ensures |Split(s, pat)| > 1 <==> Contains(s, pat)
    decreases |s|
  {
    if |s| < |pat| {
    } else if s[..|pat|] == pat {
    } else {
      SplitCountsOccurrence(s[1..], pat);
    }
  }

  /** Without an occurrence of `pat`, `replace` leaves the string alone. */
  lemma ReplaceWithoutOccurrence(s: string, pat: string, rep: string)
    requires |pat| > 0 && !Contains(s, pat)
    ensures ReplaceAll(s, pat, rep) == s
  {
    ReplaceIsJoinOfSplit(s, pat, rep);
    SplitCountsOccurrence(s, pat);
    SplitJoinRoundTrip(s, pat);
  }

  /** The characters of `s` that satisfy `keep`, in order: a comprehension
      `"".join(c for c in s if keep(c))`, or `re.sub` of a character class by ''. */
  function Filter(s: string, keep: char -> bool): (r: string)
    ensures |r| <= |s|
    ensures forall i :: 0 <= i < |r| ==> keep(r[i])
    ensures multiset(r) <= multiset(s)
  {
    if s == [] then []
    else
      var t := Filter(s[1..], keep);
      assert s == [s[0]] + s[1..];
      if keep(s[0]) then [s[0]] + t else t
  }

  /** The filter keeps every accepted character, as often as `s` has it. */
  lemma {:induction false} FilterCounts(s: string, keep: char -> bool)
    ensures forall c :: keep(c) ==> multiset(Filter(s, keep))[c] == multiset(s)[c]
  {
    if s != [] {
      FilterCounts(s[1..], keep);
      assert s == [s[0]] + s[1..];
      FilterCons(s[0], s[1..], keep);
    }
  }

  lemma PrefixOfConcat(x: string, y: string)
    ensures (x + y)[..|x|] == x
  {
  }

  lemma ConcatAssoc(x: string, y: string, z: string)
    ensures x + (y + z) == (x + y) + z
  {
  }

  lemma FilterCons(c: char, s: string, keep: char -> bool)
    ensures Filter([c] + s, keep) == if keep(c) then [c] + Filter(s, keep) else Filter(s, keep)
  {
    assert ([c] + s)[1..] == s;
  }

  /** Filtering a concatenation filters each part: the kept characters stay
      in their order. */
  lemma {:induction false} FilterAppend(a: string, b: string, keep: char -> bool)
    ensures Filter(a + b, keep) == Filter(a, keep) + Filter(b, keep)
    decreases |a|
  {
    if a == [] {
      assert a + b == b;
    } else {
      var c, tail := a[0], a[1..];
      assert a == [c] + tail;
      assert a + b == [c] + (tail + b);
      FilterAppend(tail, b, keep);
      FilterCons(c, tail + b, keep);
      FilterCons(c, tail, keep);
      var ft, fb := Filter(tail, keep), Filter(b, keep);
      if keep(c) {
        assert Filter(a + b, keep) == [c] + (ft + fb);
        ConcatAssoc([c], ft, fb);
      } else {
        assert Filter(a + b, keep) == ft + fb;
      }
    }
  }

  /** Filtering is idempotent, and the identity on strings it would keep whole. */
  lemma {:induction false} FilterKeepsAll(s: string, keep: char -> bool)
    requires forall i :: 0 <= i < |s| ==> keep(s[i])
    ensures Filter(s, keep) == s
  {
    if s != [] {
      FilterKeepsAll(s[1..], keep);
    }
  }

  lemma FilterIdempotent(s: string, keep: char -> bool)
    ensures Filter(Filter(s, keep), keep) == Filter(s, keep)
  {
    FilterKeepsAll(Filter(s, keep), keep);
  }
}
