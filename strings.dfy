/**
 * The few Foundation string operations the modelled code relies on:
 * `joined(separator:)`, `replacingOccurrences(of:with:)` and the ordering
 * `<` used by `sorted(by:)`, on strings seen as sequences of characters.
 */
module Strings {

  /** `xs.joined(separator: sep)`. */
  function Join(xs: seq<string>, sep: string): string
    decreases |xs|
  {
    if |xs| == 0 then ""
    else if |xs| == 1 then xs[0]
    else xs[0] + sep + Join(xs[1..], sep)
  }

  /** Joining two non-empty lists is joining their joins: no separator is lost or doubled at the seam. */
  lemma {:induction false} JoinConcat(xs: seq<string>, ys: seq<string>, sep: string)
    requires xs != [] && ys != []
    ensures Join(xs + ys, sep) == Join(xs, sep) + sep + Join(ys, sep)
    decreases |xs|
  {
    if |xs| == 1 {
      assert (xs + ys)[1..] == ys;
    } else {
      assert (xs + ys)[1..] == xs[1..] + ys;
      JoinConcat(xs[1..], ys, sep);
    }
  }

  /** Joining with a separator adds exactly one separator between neighbours. */
  lemma {:induction false} JoinLength(xs: seq<string>, sep: string)
    requires xs != []
    ensures |Join(xs, sep)| == TotalLength(xs) + (|xs| - 1) * |sep|
    decreases |xs|
  {
    if |xs| > 1 {
      JoinLength(xs[1..], sep);
    }
  }

  /** The number of characters of all strings of `xs` together. */
  function TotalLength(xs: seq<string>): nat
    decreases |xs|
  {
    if xs == [] then 0 else |xs[0]| + TotalLength(xs[1..])
  }

  /** `t` occurs in `s` starting at index `i`. */
  predicate StartsAt(s: string, t: string, i: int)
  {
    0 <= i && i + |t| <= |s| && s[i..i + |t|] == t
  }

  /**
   * `s.replacingOccurrences(of: t, with: r)`: every occurrence of `t`, found
   * left to right without overlap, is replaced by `r`. Foundation leaves the
   * string unchanged when `t` is empty.
   */
  function ReplacingOccurrences(s: string, t: string, r: string): string
    decreases |s|
  {
    if |t| == 0 || |s| < |t| then s
    else if s[..|t|] == t then r + ReplacingOccurrences(s[|t|..], t, r)
    else [s[0]] + ReplacingOccurrences(s[1..], t, r)
  }

  /** A string in which `t` does not occur is left unchanged. */
  lemma {:induction false} ReplacingNothing(s: string, t: string, r: string)
    requires forall i :: !StartsAt(s, t, i)
    ensures ReplacingOccurrences(s, t, r) == s
    decreases |s|
  {
    if |t| == 0 || |s| < |t| {
    } else {
      assert !StartsAt(s, t, 0);
      assert s[..|t|] == s[0..0 + |t|];
      forall i ensures !StartsAt(s[1..], t, i) {
        if StartsAt(s[1..], t, i) {
          assert s[1..][i..i + |t|] == s[i + 1..i + 1 + |t|];
          assert StartsAt(s, t, i + 1);
        }
      }
      ReplacingNothing(s[1..], t, r);
    }
  }

  /** No occurrence of `t` starts inside `p` when `p` is followed by `t`. */
  predicate NoMatchBefore(p: string, t: string)
  {
    forall i :: 0 <= i < |p| ==> !StartsAt(p + t, t, i)
  }

  /**
   * The first occurrence of a non-empty `t` is replaced by `r`, the characters
   * before it are kept, and replacement continues after it.
   */
  lemma {:induction false} ReplacingFirst(p: string, t: string, rest: string, r: string)
    requires |t| > 0 && NoMatchBefore(p, t)
    ensures ReplacingOccurrences(p + t + rest, t, r) == p + r + ReplacingOccurrences(rest, t, r)
    decreases |p|
  {
    var s := p + t + rest;
    if |p| == 0 {
      assert s == t + rest;
      assert s[..|t|] == t;
      assert s[|t|..] == rest;
    } else {
      assert !StartsAt(p + t, t, 0);
      assert s[..|t|] == (p + t)[0..0 + |t|];
      assert s[1..] == p[1..] + t + rest;
      NoMatchBeforeTail(p, t);
      ReplacingFirst(p[1..], t, rest, r);
      var tail := ReplacingOccurrences(rest, t, r);
      assert ReplacingOccurrences(s, t, r) == [p[0]] + (p[1..] + r + tail);
      assert [p[0]] + (p[1..] + r + tail) == p + r + tail;
    }
  }

  /** Dropping the first character of `p` keeps `t` from occurring before its end. */
  lemma NoMatchBeforeTail(p: string, t: string)
    requires |p| > 0 && NoMatchBefore(p, t)
    ensures NoMatchBefore(p[1..], t)
  {
    forall i | 0 <= i < |p[1..]| ensures !StartsAt(p[1..] + t, t, i) {
      if StartsAt(p[1..] + t, t, i) {
        assert (p[1..] + t)[i..i + |t|] == (p + t)[i + 1..i + 1 + |t|];
        assert StartsAt(p + t, t, i + 1);
      }
    }
  }

  /** Swift's `<=` on strings, as lexicographic order of characters. */
  predicate LexLe(a: string, b: string)
    decreases |a|
  {
    |a| == 0 || (|b| != 0 && (a[0] < b[0] || (a[0] == b[0] && LexLe(a[1..], b[1..]))))
  }

  lemma {:induction false} LexLeReflexive(a: string)
    ensures LexLe(a, a)
    decreases |a|
  {
    if |a| != 0 {
      LexLeReflexive(a[1..]);
    }
  }

  lemma {:induction false} LexLeTotal(a: string, b: string)
    ensures LexLe(a, b) || LexLe(b, a)
    decreases |a|
  {
    if |a| != 0 && |b| != 0 && a[0] == b[0] {
      LexLeTotal(a[1..], b[1..]);
    }
  }

  lemma {:induction false} LexLeTransitive(a: string, b: string, c: string)
    requires LexLe(a, b) && LexLe(b, c)
    ensures LexLe(a, c)
    decreases |a|
  {
    if |a| != 0 && a[0] == b[0] && b[0] == c[0] {
      LexLeTransitive(a[1..], b[1..], c[1..]);
    }
  }
}
