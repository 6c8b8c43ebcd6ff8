/**
 * A path viewed as a list of segments: one leading delimiter is dropped, and
 * what remains is split at every delimiter. Consecutive delimiters and a
 * trailing delimiter give empty segments, and there is always at least one
 * segment. `Split` and `Join` are inverse to each other; this is the
 * reference view the scanning operations are proved against.
 */
module Paths {

  const Delim: char := '/'

  /** 1 when the path starts with the delimiter (which opens no segment), 0 otherwise. */
  function Lead(p: string): (n: nat)
    ensures n <= |p|
    ensures n == 1 <==> |p| > 0 && p[0] == Delim
  {
    if |p| > 0 && p[0] == Delim then 1 else 0
  }

  /** The path with one leading delimiter removed. */
  function Strip(p: string): string
  {
    p[Lead(p)..]
  }

  /** The pieces of s between delimiters, in order. */
  function Split(s: string): (r: seq<string>)
    ensures |r| >= 1
    ensures forall k :: 0 <= k < |r| ==> Delim !in r[k]
    decreases |s|
  {
    if s == [] then [[]]
    else
      var rest := Split(s[1..]);
      if s[0] == Delim then [[]] + rest
      else [[s[0]] + rest[0]] + rest[1..]
  }

  /** The pieces written out in order with one delimiter between neighbours. */
  function Join(segs: seq<string>): string
    requires |segs| >= 1
    decreases |segs|
  {
    if |segs| == 1 then segs[0] else segs[0] + [Delim] + Join(segs[1..])
  }

  /** The segments of path p. */
  function Segments(p: string): seq<string>
  {
    Split(Strip(p))
  }

  predicate NoDelim(segs: seq<string>)
  {
    forall k :: 0 <= k < |segs| ==> Delim !in segs[k]
  }

  /** Prepending text to a join prepends it to the first piece. */
  lemma {:induction false} JoinPrepend(x: string, segs: seq<string>)
    requires |segs| >= 1
    ensures Join([x + segs[0]] + segs[1..]) == x + Join(segs)
  {
    var t := [x + segs[0]] + segs[1..];
    if |segs| == 1 {
      assert t == [x + segs[0]];
    } else {
      assert t[0] == x + segs[0] && t[1..] == segs[1..];
      assert Join(t) == t[0] + [Delim] + Join(t[1..]);
      assert x + segs[0] + [Delim] + Join(segs[1..]) == x + (segs[0] + [Delim] + Join(segs[1..]));
    }
  }

  /** Joining the pieces of s gives s back. */
  lemma {:induction false} JoinSplit(s: string)
    ensures Join(Split(s)) == s
    decreases |s|
  {
    if s != [] {
      var rest := Split(s[1..]);
      JoinSplit(s[1..]);
      if s[0] == Delim {
        assert ([[]] + rest)[1..] == rest;
      } else {
        JoinPrepend([s[0]], rest);
      }
    }
  }

  /** Splitting x + y where x has no delimiter glues x to the first piece of y. */
  lemma {:induction false} SplitPrefix(x: string, y: string)
    requires Delim !in x
    ensures Split(x + y) == [x + Split(y)[0]] + Split(y)[1..]
    decreases |x|
  {
    if x == [] {
      assert x + y == y;
      assert x + Split(y)[0] == Split(y)[0];
      assert Split(y) == [Split(y)[0]] + Split(y)[1..];
    } else {
      assert (x + y)[1..] == x[1..] + y;
      SplitPrefix(x[1..], y);
      assert [x[0]] + (x[1..] + Split(y)[0]) == x + Split(y)[0];
    }
  }

  /** Text without a delimiter is one segment. */
  lemma SplitWhole(x: string)
    requires Delim !in x
    ensures Split(x) == [x]
  {
    SplitPrefix(x, []);
    assert x + [] == x;
  }

  /** A delimiter-free piece followed by a delimiter is the first segment, and the rest follow. */
  lemma SplitCons(x: string, rest: string)
    requires Delim !in x
    ensures Split(x + [Delim] + rest) == [x] + Split(rest)
  {
    var tail := [Delim] + rest;
    assert x + [Delim] + rest == x + tail;
    SplitPrefix(x, tail);
    assert tail[1..] == rest;
    assert Split(tail) == [[]] + Split(rest);
    assert x + [] == x;
  }

  /** Splitting at the first delimiter of s: the text before it is the first segment. */
  lemma SplitAt(s: string, j: nat)
    requires j < |s| && s[j] == Delim && Delim !in s[..j]
    ensures Split(s) == [s[..j]] + Split(s[j + 1..])
  {
    assert s == s[..j] + [Delim] + s[j + 1..];
    SplitCons(s[..j], s[j + 1..]);
  }

  /** The text before the first delimiter of s (or all of s) is its first segment. */
  lemma SplitFirst(s: string, j: nat)
    requires j <= |s| && (j < |s| ==> s[j] == Delim) && Delim !in s[..j]
    ensures Split(s)[0] == s[..j]
    ensures j == |s| ==> Split(s) == [s]
    ensures j < |s| ==> Split(s) == [s[..j]] + Split(s[j + 1..])
  {
    if j == |s| {
      assert s[..j] == s;
      SplitWhole(s);
    } else {
      SplitAt(s, j);
    }
  }

  /** Splitting a join of delimiter-free pieces gives the pieces back. */
  lemma {:induction false} SplitJoin(segs: seq<string>)
    requires |segs| >= 1 && NoDelim(segs)
    ensures Split(Join(segs)) == segs
    decreases |segs|
  {
    if |segs| == 1 {
      SplitWhole(segs[0]);
    } else {
      SplitCons(segs[0], Join(segs[1..]));
      SplitJoin(segs[1..]);
      assert segs == [segs[0]] + segs[1..];
    }
  }

  /** Joining two non-empty lists of pieces puts one delimiter between their joins. */
  lemma {:induction false} JoinAppend(a: seq<string>, b: seq<string>)
    requires |a| >= 1 && |b| >= 1
    ensures Join(a + b) == Join(a) + [Delim] + Join(b)
    decreases |a|
  {
    if |a| > 1 {
      assert (a + b)[1..] == a[1..] + b;
      JoinAppend(a[1..], b);
    } else {
      assert (a + b)[1..] == b;
    }
  }

  /** A path whose stripped text is the join of delimiter-free pieces has exactly those segments. */
  lemma SegmentsOf(p: string, segs: seq<string>)
    requires |segs| >= 1 && NoDelim(segs)
    requires Strip(p) == Join(segs)
    ensures Segments(p) == segs
  {
    SplitJoin(segs);
  }
}
