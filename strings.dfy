/** The Python `str` operations the scripts rely on: substring search (as used by
    the fence regex), `str.replace`, `str.strip(c)`, `sep.join(parts)`,
    `str.split(sep)` (the inverse of `join`, used to state what a joined line holds)
    and `c * n`. */
module Strings {
  import opened JsonValue

  /** `w` occurs in `s` starting at index `k`. */
  predicate OccursAt(s: string, w: string, k: nat)
  {
    k + |w| <= |s| && s[k..k + |w|] == w
  }

  /** `w in s` for strings. */
  predicate Contains(s: string, w: string)
  {
    exists k: nat | k <= |s| :: OccursAt(s, w, k)
  }

  /** Leftmost occurrence of `w` in `s` at or after `from` (`s.find(w, from)`). */
  function Find(s: string, w: string, from: nat): (r: Option<nat>)
    ensures r.Some? ==> from <= r.value && OccursAt(s, w, r.value)
    ensures r.Some? ==> forall k: nat :: from <= k < r.value ==> !OccursAt(s, w, k)
    ensures r.None? ==> forall k: nat :: from <= k ==> !OccursAt(s, w, k)
    decreases |s| + 1 - from
  {
    if from + |w| > |s| then None
    else if OccursAt(s, w, from) then Some(from)
    else Find(s, w, from + 1)
  }

  /** A first occurrence at or after `from` is what `Find` returns. */
  lemma {:induction false} FindFirst(s: string, w: string, from: nat, p: nat)
    requires from <= p && OccursAt(s, w, p)
    requires forall q: nat :: from <= q < p ==> !OccursAt(s, w, q)
    ensures Find(s, w, from) == Some(p)
    decreases p - from
  {
    if from < p {
      FindFirst(s, w, from + 1, p);
    }
  }

  /** `s.replace(pat, rep)`: a left-to-right scan that replaces each
      non-overlapping occurrence of `pat` and resumes after it. */
  function ReplaceAll(s: string, pat: string, rep: string): string
    requires |pat| > 0
    decreases |s|
  {
    if |s| == 0 then ""
    else if OccursAt(s, pat, 0) then rep + ReplaceAll(s[|pat|..], pat, rep)
    else [s[0]] + ReplaceAll(s[1..], pat, rep)
  }

  /** A same-length replacement keeps the length of the string. */
  lemma {:induction false} ReplaceAllLength(s: string, pat: string, rep: string)
    requires |pat| > 0 && |rep| == |pat|
    ensures |ReplaceAll(s, pat, rep)| == |s|
    decreases |s|
  {
    if |s| == 0 {
    } else if OccursAt(s, pat, 0) {
      ReplaceAllLength(s[|pat|..], pat, rep);
    } else {
      ReplaceAllLength(s[1..], pat, rep);
    }
  }

  /** Replacing a pattern that does not occur changes nothing. */
  lemma {:induction false} ReplaceAllAbsent(s: string, pat: string, rep: string)
    requires |pat| > 0 && !Contains(s, pat)
    ensures ReplaceAll(s, pat, rep) == s
    decreases |s|
  {
    if |s| > 0 {
      assert !OccursAt(s, pat, 0);
      forall k: nat | OccursAt(s[1..], pat, k)
        ensures false
      {
        assert s[k + 1..k + 1 + |pat|] == s[1..][k..k + |pat|];
        assert OccursAt(s, pat, k + 1);
      }
      ReplaceAllAbsent(s[1..], pat, rep);
      assert s == [s[0]] + s[1..];
    }
  }

  /** If the replaced text starts with `w`, and `w` cannot begin inside a
      replacement, then the original text starts with `w` too. */
  lemma {:induction false} PrefixSurvives(u: string, pat: string, rep: string, w: string)
    requires |pat| > 0 && |rep| > 0
    requires forall i :: 0 <= i < |w| ==> w[i] != rep[0]
    requires OccursAt(ReplaceAll(u, pat, rep), w, 0)
    ensures OccursAt(u, w, 0)
    decreases |w|
  {
    if |w| > 0 {
      var r := ReplaceAll(u, pat, rep);
      assert |u| > 0 && r[0] == w[0] && r[0] != rep[0];
      assert !OccursAt(u, pat, 0);
      var r' := ReplaceAll(u[1..], pat, rep);
      assert r == [u[0]] + r';
      assert u[0] == w[0];
      assert r'[0..|w| - 1] == r[1..|w|] == w[1..];
      PrefixSurvives(u[1..], pat, rep, w[1..]);
      assert u[..|w|] == [u[0]] + u[1..][..|w| - 1];
    }
  }

  /** An occurrence in a suffix is an occurrence in the whole. */
  lemma ContainsSuffix(s: string, d: nat, w: string)
    requires d <= |s| && Contains(s[d..], w)
    ensures Contains(s, w)
  {
    var j: nat :| j <= |s[d..]| && OccursAt(s[d..], w, j);
    assert s[d + j..d + j + |w|] == s[d..][j..j + |w|];
    assert OccursAt(s, w, d + j);
  }

  /** An occurrence of `w` in the replaced text comes from an occurrence in the
      original, provided `w` and the replacement share no starting character. */
  lemma {:induction false} OccurrenceTrace(s: string, pat: string, rep: string, w: string, k: nat)
    requires |pat| > 0 && |rep| > 0 && |w| > 0
    requires forall i :: 0 <= i < |rep| ==> rep[i] != w[0]
    requires forall i :: 0 <= i < |w| ==> w[i] != rep[0]
    requires OccursAt(ReplaceAll(s, pat, rep), w, k)
    ensures Contains(s, w)
    decreases |s|
  {
    assert |s| > 0;
    if OccursAt(s, pat, 0) {
      PastReplacement(s, pat, rep, w, k);
      OccurrenceTrace(s[|pat|..], pat, rep, w, k - |rep|);
      ContainsSuffix(s, |pat|, w);
    } else if k == 0 {
      PrefixSurvives(s, pat, rep, w);
    } else {
      PastCharacter(s, pat, rep, w, k);
      OccurrenceTrace(s[1..], pat, rep, w, k - 1);
      ContainsSuffix(s, 1, w);
    }
  }

  /** An occurrence of `w` after a leading replacement lies in the rest. */
  lemma PastReplacement(s: string, pat: string, rep: string, w: string, k: nat)
    requires |pat| > 0 && |w| > 0 && OccursAt(s, pat, 0)
    requires forall i :: 0 <= i < |rep| ==> rep[i] != w[0]
    requires OccursAt(ReplaceAll(s, pat, rep), w, k)
    ensures k >= |rep| && OccursAt(ReplaceAll(s[|pat|..], pat, rep), w, k - |rep|)
  {
    var r := ReplaceAll(s, pat, rep);
    var r' := ReplaceAll(s[|pat|..], pat, rep);
    assert r == rep + r';
    assert r[k] == r[k..k + |w|][0] == w[0];
    assert forall i :: 0 <= i < |rep| ==> r[i] == rep[i];
    assert r'[k - |rep|..k - |rep| + |w|] == r[k..k + |w|];
  }

  /** An occurrence of `w` past the first character, when `s` does not start
      with the pattern, lies in the rest. */
  lemma PastCharacter(s: string, pat: string, rep: string, w: string, k: nat)
    requires |pat| > 0 && |s| > 0 && !OccursAt(s, pat, 0) && k > 0
    requires OccursAt(ReplaceAll(s, pat, rep), w, k)
    ensures OccursAt(ReplaceAll(s[1..], pat, rep), w, k - 1)
  {
    var r := ReplaceAll(s, pat, rep);
    var r' := ReplaceAll(s[1..], pat, rep);
    assert r == [s[0]] + r';
    assert r'[k - 1..k - 1 + |w|] == r[k..k + |w|];
  }

  /** `replace` removes every occurrence of its pattern, as long as the
      replacement cannot recreate one: the pattern's first character is not in
      the replacement, and the replacement's first character is not in the
      rest of the pattern. */
  lemma {:induction false} ReplaceAllRemoves(s: string, pat: string, rep: string, k: nat)
    requires |pat| > 0 && |rep| > 0
    requires forall i :: 0 <= i < |rep| ==> rep[i] != pat[0]
    requires forall i :: 1 <= i < |pat| ==> pat[i] != rep[0]
    ensures !OccursAt(ReplaceAll(s, pat, rep), pat, k)
    decreases |s|
  {
    var r := ReplaceAll(s, pat, rep);
    if OccursAt(r, pat, k) {
      assert |s| > 0;
      if OccursAt(s, pat, 0) {
        var r' := ReplaceAll(s[|pat|..], pat, rep);
        assert r == rep + r';
        if k >= |rep| {
          assert r'[k - |rep|..k - |rep| + |pat|] == r[k..k + |pat|];
          ReplaceAllRemoves(s[|pat|..], pat, rep, k - |rep|);
        }
      } else {
        var r' := ReplaceAll(s[1..], pat, rep);
        assert r == [s[0]] + r';
        if k == 0 {
          assert s[0] == pat[0];
          assert r[0..|pat|] == pat;
          assert r[1..|pat|] == r[0..|pat|][1..] == pat[1..];
          assert r'[0..|pat| - 1] == r[1..|pat|];
          PrefixSurvives(s[1..], pat, rep, pat[1..]);
        } else {
          assert r'[k - 1..k - 1 + |pat|] == r[k..k + |pat|];
          ReplaceAllRemoves(s[1..], pat, rep, k - 1);
        }
      }
    }
  }

  /** All characters of `s` are `c`. */
  predicate OnlyChar(s: string, c: char)
  {
    forall i :: 0 <= i < |s| ==> s[i] == c
  }

  /** `c * n`. */
  function Repeat(c: char, n: nat): (r: string)
    ensures |r| == n && OnlyChar(r, c)
  {
    seq(n, _ => c)
  }

  /** Number of leading `c` characters. */
  function LeadingRun(s: string, c: char): (n: nat)
    ensures n <= |s| && OnlyChar(s[..n], c)
    ensures n < |s| ==> s[n] != c
    decreases |s|
  {
    if |s| > 0 && s[0] == c then
      var n := LeadingRun(s[1..], c);
      assert s[..n + 1] == [c] + s[1..][..n];
      1 + n
    else 0
  }

  /** Number of trailing `c` characters. */
  function TrailingRun(s: string, c: char): (n: nat)
    ensures n <= |s| && forall i :: |s| - n <= i < |s| ==> s[i] == c
    ensures n < |s| ==> s[|s| - 1 - n] != c
    decreases |s|
  {
    if |s| > 0 && s[|s| - 1] == c then
      var n := TrailingRun(s[..|s| - 1], c);
      1 + n
    else 0
  }

  /** `r` is what remains of `s` once `a` leading and all trailing `c` are cut. */
  predicate StripsTo(s: string, c: char, a: nat, r: string)
  {
    a + |r| <= |s| && s[a..a + |r|] == r && OnlyChar(s[..a], c) && OnlyChar(s[a + |r|..], c)
  }

  /** `s.strip(c)`: drop every leading and trailing `c`. */
  function Strip(s: string, c: char): (r: string)
    ensures r == "" || (r[0] != c && r[|r| - 1] != c)
    ensures exists a: nat :: StripsTo(s, c, a, r)
  {
    var a := LeadingRun(s, c);
    var t := s[a..];
    var r := t[..|t| - TrailingRun(t, c)];
    assert StripsTo(s, c, a, r) by {
      assert s[a..a + |r|] == r;
      var u := s[a + |r|..];
      forall i | 0 <= i < |u|
        ensures u[i] == c
      {
        assert u[i] == t[|r| + i];
      }
    }
    r
  }

  lemma {:induction false} LeadingRunOf(pre: string, rest: string, c: char)
    requires OnlyChar(pre, c)
    requires rest == "" || rest[0] != c
    ensures LeadingRun(pre + rest, c) == |pre|
    decreases |pre|
  {
    if |pre| > 0 {
      assert (pre + rest)[1..] == pre[1..] + rest;
      LeadingRunOf(pre[1..], rest, c);
    }
  }

  lemma {:induction false} TrailingRunOf(rest: string, post: string, c: char)
    requires OnlyChar(post, c)
    requires rest == "" || rest[|rest| - 1] != c
    ensures TrailingRun(rest + post, c) == |post|
    decreases |post|
  {
    if |post| > 0 {
      assert (rest + post)[..|rest + post| - 1] == rest + post[..|post| - 1];
      TrailingRunOf(rest, post[..|post| - 1], c);
    }
  }

  /** `strip` recovers the core of any string made of a run of `c`, a core
      that neither starts nor ends with `c`, and another run of `c`. */
  lemma StripOf(pre: string, core: string, post: string, c: char)
    requires OnlyChar(pre, c) && OnlyChar(post, c)
    requires core == "" || (core[0] != c && core[|core| - 1] != c)
    ensures Strip(pre + core + post, c) == core
  {
    var s := pre + core + post;
    if core == "" {
      assert OnlyChar(s, c);
      LeadingRunOf(s, "", c);
      assert s + "" == s;
    } else {
      assert s == pre + (core + post);
      LeadingRunOf(pre, core + post, c);
      var t := s[|pre|..];
      assert t == core + post;
      TrailingRunOf(core, post, c);
    }
  }

  /** `sep.join(parts)`. */
  function Join(parts: seq<string>, sep: string): string
    decreases |parts|
  {
    if |parts| == 0 then ""
    else if |parts| == 1 then parts[0]
    else parts[0] + sep + Join(parts[1..], sep)
  }

  /** `s.split(sep)` for a single-character separator. */
  function Split(s: string, sep: char): (r: seq<string>)
    ensures |r| > 0
    decreases |s|
  {
    if |s| == 0 then [""]
    else
      var rest := Split(s[1..], sep);
      if s[0] == sep then [""] + rest else [[s[0]] + rest[0]] + rest[1..]
  }

  predicate Free(p: string, sep: char)
  {
    forall i :: 0 <= i < |p| ==> p[i] != sep
  }

  lemma {:induction false} SplitFree(p: string, sep: char)
    requires Free(p, sep)
    ensures Split(p, sep) == [p]
    decreases |p|
  {
    if |p| > 0 {
      SplitFree(p[1..], sep);
      assert [p[0]] + p[1..] == p;
    }
  }

  lemma {:induction false} SplitAtFirst(p: string, rest: string, sep: char)
    requires Free(p, sep)
    ensures Split(p + [sep] + rest, sep) == [p] + Split(rest, sep)
    decreases |p|
  {
    var s := p + [sep] + rest;
    if |p| == 0 {
      assert s[1..] == rest;
    } else {
      assert s[1..] == p[1..] + [sep] + rest;
      SplitAtFirst(p[1..], rest, sep);
      assert [p[0]] + p[1..] == p;
    }
  }

  /** `split` undoes `join` when no part contains the separator. */
  lemma {:induction false} SplitJoin(parts: seq<string>, sep: char)
    requires |parts| > 0
    requires forall i :: 0 <= i < |parts| ==> Free(parts[i], sep)
    ensures Split(Join(parts, [sep]), sep) == parts
    decreases |parts|
  {
    if |parts| == 1 {
      SplitFree(parts[0], sep);
    } else {
      SplitJoin(parts[1..], sep);
      SplitAtFirst(parts[0], Join(parts[1..], [sep]), sep);
      assert [parts[0]] + parts[1..] == parts;
    }
  }

  /** Blocks of lines laid end to end, the way a loop appends each block
      to a growing list. */
  function Concat(blocks: seq<seq<string>>): seq<string>
    decreases |blocks|
  {
    if |blocks| == 0 then [] else Concat(blocks[..|blocks| - 1]) + blocks[|blocks| - 1]
  }

  lemma {:induction false} ConcatLength(blocks: seq<seq<string>>, w: nat)
    requires forall i :: 0 <= i < |blocks| ==> |blocks[i]| == w
    ensures |Concat(blocks)| == w * |blocks|
    decreases |blocks|
  {
    if |blocks| > 0 {
      var n := |blocks| - 1;
      ConcatLength(blocks[..n], w);
      assert w * |blocks| == w * n + w;
    }
  }

  /** With every block `w` lines long, line `j` of block `k` is line
      `w * k + j` of the whole. */
  lemma {:induction false} ConcatAt(blocks: seq<seq<string>>, w: nat, k: nat, j: nat)
    requires forall i :: 0 <= i < |blocks| ==> |blocks[i]| == w
    requires k < |blocks| && j < w
    ensures w * k + j < |Concat(blocks)| && Concat(blocks)[w * k + j] == blocks[k][j]
    decreases |blocks|
  {
    var n := |blocks| - 1;
    ConcatLength(blocks, w);
    ConcatLength(blocks[..n], w);
    assert w * k + j < w * (k + 1) <= w * |blocks| by {
      assert w * (k + 1) == w * k + w;
      assert w * |blocks| == w * (k + 1) + w * (|blocks| - (k + 1));
    }
    if k < n {
      ConcatAt(blocks[..n], w, k, j);
      assert w * k + j < w * n by {
        assert w * n == w * (k + 1) + w * (n - (k + 1));
        assert w * (k + 1) == w * k + w;
      }
    } else {
      assert w * k == w * n;
    }
  }
}
