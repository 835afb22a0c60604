/**
 * The two operations on Python strings the bridge relies on: the substring
 * test `pat in s` and `s.replace(pat, rep)`, which replaces every
 * non-overlapping occurrence of `pat`, scanning from the left.
 */
module Text {

  /** `pat` occurs in `s` starting at index `i`. */
  predicate OccursAt(s: string, pat: string, i: nat)
  {
    i + |pat| <= |s| && s[i..i + |pat|] == pat
  }

  /** Python's `pat in s` on two strings (the empty string occurs everywhere). */
  predicate Contains(s: string, pat: string)
  {
    exists i: nat | i <= |s| :: OccursAt(s, pat, i)
  }

  /** `"abc".replace("", rep)` puts `rep` before every character and at the end. */
  function InsertEverywhere(s: string, rep: string): (r: string)
    ensures |r| == |s| + (|s| + 1) * |rep|
  {
    if s == [] then rep else rep + [s[0]] + InsertEverywhere(s[1..], rep)
  }

  /** Python's `s.replace(pat, rep)`. */
  function ReplaceAll(s: string, pat: string, rep: string): (r: string)
  {
    if pat == [] then InsertEverywhere(s, rep) else ReplaceScan(s, pat, rep)
  }

  /**
   * The left-to-right scan of `s.replace(pat, rep)` for a non-empty pattern:
   * an occurrence at the scan position is replaced and skipped, otherwise
   * one character is kept.
   */
  function ReplaceScan(s: string, pat: string, rep: string): (r: string)
    requires pat != []
    decreases |s|
  {
    if |s| < |pat| then s
    else if s[..|pat|] == pat then rep + ReplaceScan(s[|pat|..], pat, rep)
    else [s[0]] + ReplaceScan(s[1..], pat, rep)
  }

  /** A string in which a non-empty pattern does not occur is left as it is. */
  /** An occurrence in the tail `s[1..]` is an occurrence in `s`, one place later. */
  lemma OccursInTail(s: string, pat: string, i: nat)
    requires s != [] && OccursAt(s[1..], pat, i)
    ensures OccursAt(s, pat, i + 1)
  {
    assert s[1..][i..i + |pat|] == s[i + 1..i + 1 + |pat|];
  }

  /** A string in which a non-empty pattern does not occur is left as it is. */
  lemma {:induction false} ReplaceAbsent(s: string, pat: string, rep: string)
    requires pat != [] && !Contains(s, pat)
    ensures ReplaceScan(s, pat, rep) == s
    decreases |s|
  {
    if |s| >= |pat| {
      assert !OccursAt(s, pat, 0);
      forall i: nat | i <= |s[1..]| && OccursAt(s[1..], pat, i) ensures false {
        OccursInTail(s, pat, i);
      }
      ReplaceAbsent(s[1..], pat, rep);
    }
  }

  /**
   * When a non-empty pattern occurs in `ns + pat` only at its very end, the
   * replacement rewrites that last occurrence and keeps the prefix `ns`.
   */
  lemma {:induction false} ReplaceOnlyAtEnd(ns: string, pat: string, rep: string)
    requires pat != []
    requires forall i: nat | i < |ns| :: !OccursAt(ns + pat, pat, i)
    ensures ReplaceScan(ns + pat, pat, rep) == ns + rep
    decreases |ns|
  {
    var s := ns + pat;
    if ns == [] {
      assert s == pat && s[|pat|..] == [];
    } else {
      assert !OccursAt(s, pat, 0);
      var tail := ns[1..] + pat;
      assert s[1..] == tail;
      forall i: nat | i < |ns[1..]| && OccursAt(tail, pat, i) ensures false {
        OccursInTail(s, pat, i);
      }
      ReplaceOnlyAtEnd(ns[1..], pat, rep);
      assert ReplaceScan(s, pat, rep) == [s[0]] + (ns[1..] + rep);
      assert [ns[0]] + ns[1..] == ns;
    }
  }

  /** A string shorter than a non-empty pattern is left as it is. */
  lemma ReplaceShort(s: string, pat: string, rep: string)
    requires pat != [] && |s| < |pat|
    ensures ReplaceScan(s, pat, rep) == s
  {
  }

  /** Where the pattern does not start, one character is copied and the scan moves on. */
  lemma ReplaceStep(s: string, pat: string, rep: string)
    requires pat != [] && |s| >= |pat| && s[..|pat|] != pat
    ensures ReplaceScan(s, pat, rep) == [s[0]] + ReplaceScan(s[1..], pat, rep)
  {
  }

  /**
   * Characters that cannot start the pattern are copied unchanged, and the
   * scan resumes after them.
   */
  lemma {:induction false} ReplaceSkipsPrefix(pre: string, rest: string, pat: string, rep: string)
    requires pat != [] && pat[0] !in pre
    ensures ReplaceScan(pre + rest, pat, rep) == pre + ReplaceScan(rest, pat, rep)
    decreases |pre|
  {
    var s := pre + rest;
    if pre == [] {
      assert s == rest;
    } else if |s| < |pat| {
      ReplaceShort(s, pat, rep);
      ReplaceShort(rest, pat, rep);
    } else {
      assert s[..|pat|] != pat by {
        assert s[..|pat|][0] == pre[0];
      }
      ReplaceStep(s, pat, rep);
      assert s[1..] == pre[1..] + rest;
      ReplaceSkipsPrefix(pre[1..], rest, pat, rep);
      assert [pre[0]] + pre[1..] == pre;
    }
  }

  /** An occurrence at the start is replaced and the scan resumes after it. */
  lemma ReplaceAtStart(pat: string, rest: string, rep: string)
    requires pat != []
    ensures ReplaceScan(pat + rest, pat, rep) == rep + ReplaceScan(rest, pat, rep)
  {
    var s := pat + rest;
    assert s[..|pat|] == pat && s[|pat|..] == rest;
  }
}
