/**
 * Plain string helpers the builder and its reader share, with the slicing
 * facts the proofs use stated once over arbitrary strings.
 */
module Text {
  import opened Wrappers

  predicate HasPrefix(s: string, prefix: string) {
    |prefix| <= |s| && s[..|prefix|] == prefix
  }

  predicate HasSuffix(s: string, suffix: string) {
    |suffix| <= |s| && s[|s| - |suffix|..] == suffix
  }

  /** `t` occurs somewhere in `s` as a contiguous block. */
  predicate Occurs(t: string, s: string) {
    exists k :: 0 <= k <= |s| && HasPrefix(s[k..], t)
  }

  /** Python's `sep.join(parts)`. */
  function Join(parts: seq<string>, sep: string): string {
    if |parts| == 0 then ""
    else if |parts| == 1 then parts[0]
    else parts[0] + sep + Join(parts[1..], sep)
  }

  lemma JoinThree(x: string, y: string, z: string, sep: string)
    ensures Join([x, y, z], sep) == x + sep + y + sep + z
  {
    assert [x, y, z][1..] == [y, z];
    assert [y, z][1..] == [z];
    assert Join([y, z], sep) == y + sep + z;
  }

  /** Position of the first `c` in `s`. */
  function IndexOf(s: string, c: char): (r: Option<nat>)
    ensures r.Some? ==> r.value < |s| && s[r.value] == c && c !in s[..r.value]
    ensures r.None? ==> c !in s
  {
    if |s| == 0 then None
    else if s[0] == c then Some(0)
    else match IndexOf(s[1..], c)
      case None => None
      case Some(k) => Some(k + 1)
  }

  lemma {:induction false} IndexOfFirst(s: string, t: string, c: char)
    requires c !in s
    ensures IndexOf(s + [c] + t, c) == Some(|s|)
  {
    if |s| > 0 {
      assert (s + [c] + t)[1..] == s[1..] + [c] + t;
      IndexOfFirst(s[1..], t, c);
    }
  }

  /** The three pieces of `a + b + c` can be cut apart again. */
  lemma Framed(a: string, b: string, c: string)
    ensures HasPrefix(a + b + c, a)
    ensures HasSuffix(a + b + c, c)
    ensures |a| + |c| <= |a + b + c|
    ensures (a + b + c)[|a|..|a + b + c| - |c|] == b
  {}

  /** Splitting `a + b` at `|a|`. */
  lemma Split(a: string, b: string)
    ensures HasPrefix(a + b, a)
    ensures (a + b)[..|a|] == a
    ensures (a + b)[|a|..] == b
  {}

  lemma Regroup(a: string, b: string, c: string, d: string, e: string)
    ensures a + b + c + d + e == a + (b + c + (d + e))
    ensures a + b + c + d + e == a + b + (c + d + e)
  {}

  lemma RegroupMiddle(a: string, b: string, c: string, d: string, e: string, f: string)
    ensures a + b + c + d + e + f == a + b + (c + d + e) + f
  {}

  /** Cutting `b` off the end of `a + b`. */
  lemma SplitEnd(a: string, b: string)
    ensures HasSuffix(a + b, b)
    ensures (a + b)[..|a + b| - |b|] == a
  {}

  /** Dropping the first `|a| + |b|` characters of `a + b + c` leaves `c`. */
  lemma DropTwo(a: string, b: string, c: string)
    ensures (a + b + c)[|a| + |b|..] == c
    ensures (a + b + c)[..|a|] == a
    ensures (a + b + c)[|a|..] == b + c
  {}

  lemma PrefixExtends(a: string, b: string, c: string, t: string)
    ensures HasPrefix(b, t) ==> HasPrefix(a + b + c, a + t)
  {}

  lemma SuffixExtends(a: string, b: string, c: string, t: string)
    ensures HasSuffix(b, t) ==> HasSuffix(a + b + c, t + c)
  {}

  lemma OccursSelf(t: string)
    ensures Occurs(t, t)
  {
    assert t[0..][..|t|] == t;
  }

  lemma OccursInside(a: string, b: string, c: string)
    ensures Occurs(b, a + b + c)
  {
    var s := a + b + c;
    assert s[|a|..][..|b|] == b;
  }

  lemma OccursTransitive(t: string, b: string, a: string, c: string)
    requires Occurs(t, b)
    ensures Occurs(t, a + b + c)
  {
    var k :| 0 <= k <= |b| && HasPrefix(b[k..], t);
    var s := a + b + c;
    assert s[|a| + k..][..|t|] == b[k..][..|t|];
  }
}
