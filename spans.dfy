/**
 * Spans: the verbatim text of a path between two segment boundaries.
 * Boundary 0 is the start of the path, boundary n (for n segments) is its
 * end, and boundary k in between is the delimiter in front of segment k, so
 * a span from boundary f to boundary l covers segments f .. l-1.
 */
module Spans {
  import opened Outcomes
  import opened Paths
  import opened Scan

  /** Segment number a first index stands for: f itself, or n + f when f is negative. */
  function FirstPos(n: nat, f: int): int
  {
    if f >= 0 then f else n + f
  }

  /** Boundary a last index stands for: l itself when positive, n (the end) when 0, n + l when negative. */
  function LastPos(n: nat, l: int): int
  {
    if l > 0 then l else n + l
  }

  /** Offset of boundary k in p, in terms of the segments of p. */
  function Boundary(p: string, k: nat): nat
    requires k <= |Segments(p)|
  {
    if k == 0 then 0 else Lead(p) + |Join(Segments(p)[..k])|
  }

  /** What a span from boundary f to boundary l reads as: the segments in it joined by the
      delimiter, behind a delimiter when it starts at a segment other than the first and
      behind the path's own leading delimiter when it starts at the first. */
  function Render(p: string, f: nat, l: nat): string
    requires f <= l <= |Segments(p)|
  {
    if f == l then []
    else (if f == 0 then p[..Lead(p)] else [Delim]) + Join(Segments(p)[f..l])
  }

  /** The stripped path is the join of the first k segments, a delimiter, and the join of the rest. */
  lemma StripSplitsAt(p: string, k: nat)
    requires 0 < k < |Segments(p)|
    ensures Strip(p) == Join(Segments(p)[..k]) + [Delim] + Join(Segments(p)[k..])
  {
    var segs := Segments(p);
    JoinSplit(Strip(p));
    assert segs == segs[..k] + segs[k..];
    JoinAppend(segs[..k], segs[k..]);
  }

  /** The join of the first k segments is a prefix of the stripped path. */
  lemma JoinPrefixOfStrip(p: string, k: nat)
    requires 0 < k <= |Segments(p)|
    ensures |Join(Segments(p)[..k])| <= |Strip(p)|
    ensures Strip(p)[..|Join(Segments(p)[..k])|] == Join(Segments(p)[..k])
  {
    if k == |Segments(p)| {
      JoinSplit(Strip(p));
      assert Segments(p)[..k] == Segments(p);
    } else {
      StripSplitsAt(p, k);
    }
  }

  /** Boundaries run from 0 to |p|, in order, and every inner boundary is a delimiter. */
  lemma BoundaryFacts(p: string, k: nat)
    requires k <= |Segments(p)|
    ensures Boundary(p, 0) == 0 && Boundary(p, |Segments(p)|) == |p|
    ensures Boundary(p, k) <= |p|
    ensures 0 < k < |Segments(p)| ==> Boundary(p, k) < |p| && p[Boundary(p, k)] == Delim
  {
    var n := |Segments(p)|;
    JoinSplit(Strip(p));
    assert Segments(p)[..n] == Segments(p);
    if 0 < k {
      JoinPrefixOfStrip(p, k);
    }
    if 0 < k < n {
      StripSplitsAt(p, k);
      assert Strip(p)[|Join(Segments(p)[..k])|] == Delim;
    }
  }

  /** Boundaries never decrease. */
  lemma BoundaryMonotone(p: string, f: nat, l: nat)
    requires f <= l <= |Segments(p)|
    ensures Boundary(p, f) <= Boundary(p, l) <= |p|
  {
    BoundaryFacts(p, l);
    if 0 < f < l {
      var segs := Segments(p);
      assert segs[..l] == segs[..f] + segs[f..l];
      JoinAppend(segs[..f], segs[f..l]);
    }
  }

  /** The text between two boundaries is the rendering of the segments between them. */
  lemma {:induction false} SliceIsRender(p: string, f: nat, l: nat)
    requires f <= l <= |Segments(p)|
    ensures Boundary(p, f) <= Boundary(p, l) <= |p|
    ensures p[Boundary(p, f)..Boundary(p, l)] == Render(p, f, l)
  {
    BoundaryMonotone(p, f, l);
    if f < l {
      JoinPrefixOfStrip(p, l);
      if f == 0 {
        SliceFromStart(p, l);
      } else {
        SliceFromInner(p, f, l);
      }
    }
  }

  /** SliceIsRender for a span that starts at the beginning of the path. */
  lemma SliceFromStart(p: string, l: nat)
    requires 0 < l <= |Segments(p)|
    requires |Join(Segments(p)[..l])| <= |Strip(p)|
    requires Strip(p)[..|Join(Segments(p)[..l])|] == Join(Segments(p)[..l])
    ensures p[..Boundary(p, l)] == p[..Lead(p)] + Join(Segments(p)[0..l])
  {
    var s := Strip(p);
    var b := Join(Segments(p)[..l]);
    assert Segments(p)[0..l] == Segments(p)[..l];
    assert p == p[..Lead(p)] + s;
    assert p[..Lead(p) + |b|] == p[..Lead(p)] + s[..|b|];
  }

  /** SliceIsRender for a span that starts at an inner boundary. */
  lemma SliceFromInner(p: string, f: nat, l: nat)
    requires 0 < f < l <= |Segments(p)|
    requires |Join(Segments(p)[..l])| <= |Strip(p)|
    requires Strip(p)[..|Join(Segments(p)[..l])|] == Join(Segments(p)[..l])
    ensures Boundary(p, f) <= Boundary(p, l) <= |p|
    ensures p[Boundary(p, f)..Boundary(p, l)] == [Delim] + Join(Segments(p)[f..l])
  {
    var segs := Segments(p);
    assert segs[..l] == segs[..f] + segs[f..l];
    JoinAppend(segs[..f], segs[f..l]);
    InnerSlice(p, Lead(p), Join(segs[..f]), Join(segs[f..l]), Join(segs[..l]));
  }

  /** Behind a lead, text that begins with a, a delimiter and j has the delimiter and j right after a. */
  lemma InnerSlice(p: string, lead: nat, a: string, j: string, b: string)
    requires lead <= |p| && b == a + [Delim] + j
    requires |b| <= |p| - lead && p[lead..][..|b|] == b
    ensures p[lead + |a|..lead + |b|] == [Delim] + j
  {
    assert p[lead + |a|..lead + |b|] == p[lead..][..|b|][|a|..];
  }

  /** Offset of boundary k, found by scanning to the end of segment k - 1. */
  function Offset(p: string, k: nat): (o: nat)
    requires k <= |Segments(p)|
    ensures o == Boundary(p, k)
  {
    if k == 0 then 0 else Lead(p) + SegmentEnd(Strip(p), k - 1)
  }

  /**
   * The text of p from the start of segment `first` (index f) up to the
   * boundary `last` (index l, exclusive; 0 meaning the end of the path).
   * Fails when f names no segment, when l names no boundary, or when the
   * span would run backwards; equal boundaries give the empty string.
   */
  function SpanToString(p: string, f: int, l: int): (r: Result<string>)
    ensures var n := |Segments(p)|;
            var first, last := FirstPos(n, f), LastPos(n, l);
            r.Ok? <==> 0 <= first < n && 0 <= last <= n && first <= last
    ensures var n := |Segments(p)|;
            var first, last := FirstPos(n, f), LastPos(n, l);
            r.Ok? ==> && 0 <= first <= last <= n
                      && Boundary(p, first) <= Boundary(p, last) <= |p|
                      && r.value == p[Boundary(p, first)..Boundary(p, last)]
                      && r.value == Render(p, first, last)
    ensures r.Err? ==> r.error == OutOfBounds
  {
    var n := CountSegments(Strip(p));
    var first, last := FirstPos(n, f), LastPos(n, l);
    if first < 0 || first >= n then Err(OutOfBounds)
    else if last < 0 || last > n then Err(OutOfBounds)
    else if first > last then Err(OutOfBounds)
    else
      SliceIsRender(p, first, last);
      Ok(p[Offset(p, first)..Offset(p, last)])
  }

  /** From the delimiter in front of segment k on, the path has exactly segments k.. of p. */
  lemma RestFromBoundary(p: string, k: nat)
    requires 0 < k < |Segments(p)|
    ensures Boundary(p, k) < |p|
    ensures var rest := p[Boundary(p, k)..];
            Lead(rest) == 1 && Segments(rest) == Segments(p)[k..]
  {
    var segs := Segments(p);
    var s := Strip(p);
    StripSplitsAt(p, k);
    assert p == p[..Lead(p)] + s;
    var a := Join(segs[..k]);
    var rest := p[Boundary(p, k)..];
    assert rest == s[|a|..];
    assert rest == [Delim] + Join(segs[k..]);
    assert Strip(rest) == Join(segs[k..]);
    SegmentsOf(rest, segs[k..]);
  }

  /**
   * Reference for key spans: the span of p that starts at segment k and ends
   * at the boundary offset i names among the m segments from k on (offset 0
   * meaning the end of the path, a negative offset counting back from it).
   */
  function KeySpan(p: string, k: nat, i: int): Result<string>
    requires k <= |Segments(p)|
  {
    var m := |Segments(p)| - k;
    var last := LastPos(m, i);
    if 0 <= last <= m then Ok(Render(p, k, k + last)) else Err(OutOfBounds)
  }

  /** Whenever the offset names a boundary, the key span is the span of p from segment k to it. */
  lemma KeySpanIsSpan(p: string, k: nat, i: int)
    requires 0 < k < |Segments(p)|
    ensures var m := |Segments(p)| - k;
            var last := LastPos(m, i);
            KeySpan(p, k, i) == if 0 <= last <= m then SpanToString(p, k, k + last) else Err(OutOfBounds)
  {
    var n := |Segments(p)|;
    var last := LastPos(n - k, i);
    if 0 <= last <= n - k {
      SpanInRange(p, k, k + last);
    }
  }

  /**
   * The span of the path that follows the first segment equal to key: the
   * text from the delimiter after that segment, taken from its boundary 0
   * to the boundary the offset i names (0 meaning to the end).
   */
  function SubSpanToString(p: string, key: string, i: int): (r: Result<string>)
    ensures key !in Segments(p)[..|Segments(p)| - 1] ==> r == Err(KeyNotFound)
    ensures r.Ok? ==> key in Segments(p)[..|Segments(p)| - 1]
  {
    var q := Strip(p);
    match FindKey(q, key)
    case None => Err(KeyNotFound)
    case Some(j) =>
      if j + 1 >= CountSegments(q) then Err(KeyNotFound)
      else SpanToString(p[Offset(p, j + 1)..], 0, i)
  }

  /**
   * Once the key is found at segment j (its first occurrence, not the last
   * segment), the key span is the span of p itself that starts at segment
   * j + 1, as KeySpan describes.
   */
  lemma SubSpanIsSpan(p: string, key: string, i: int, j: nat)
    requires j < |Segments(p)| - 1
    requires Segments(p)[j] == key && key !in Segments(p)[..j]
    ensures SubSpanToString(p, key, i) == KeySpan(p, j + 1, i)
  {
    SubSpanFromRest(p, key, i, j);
    RestSpanIsSpan(p, j + 1, i);
    var rest := p[Boundary(p, j + 1)..];
    assert SubSpanToString(p, key, i) == SpanToString(rest, 0, i);
  }

  /** The key span is a span of the text from the delimiter after the key's first match. */
  lemma SubSpanFromRest(p: string, key: string, i: int, j: nat)
    requires j < |Segments(p)| - 1
    requires Segments(p)[j] == key && key !in Segments(p)[..j]
    ensures Boundary(p, j + 1) < |p|
    ensures SubSpanToString(p, key, i) == SpanToString(p[Boundary(p, j + 1)..], 0, i)
  {
    RestFromBoundary(p, j + 1);
    assert FindKey(Strip(p), key) == Some(j);
    assert CountSegments(Strip(p)) == |Segments(p)|;
  }

  /** A span of the text from boundary k on is the span of p that starts at segment k. */
  lemma RestSpanIsSpan(p: string, k: nat, i: int)
    requires 0 < k < |Segments(p)|
    ensures Boundary(p, k) < |p|
    ensures SpanToString(p[Boundary(p, k)..], 0, i) == KeySpan(p, k, i)
  {
    var m := |Segments(p)| - k;
    var last := LastPos(m, i);
    if 0 <= last <= m {
      RestSpanWithin(p, k, i, last);
    } else {
      RestSpanOutside(p, k, i);
    }
  }

  /** RestSpanIsSpan when the offset names no boundary among the segments from k on. */
  lemma RestSpanOutside(p: string, k: nat, i: int)
    requires 0 < k < |Segments(p)|
    requires !(0 <= LastPos(|Segments(p)| - k, i) <= |Segments(p)| - k)
    ensures Boundary(p, k) < |p|
    ensures SpanToString(p[Boundary(p, k)..], 0, i) == KeySpan(p, k, i)
  {
    RestFromBoundary(p, k);
    var rest := p[Boundary(p, k)..];
    assert |Segments(rest)| == |Segments(p)| - k;
  }

  /** RestSpanIsSpan when the offset names a boundary among the segments from k on. */
  lemma RestSpanWithin(p: string, k: nat, i: int, last: nat)
    requires 0 < k < |Segments(p)|
    requires last == LastPos(|Segments(p)| - k, i) && last <= |Segments(p)| - k
    ensures Boundary(p, k) < |p|
    ensures SpanToString(p[Boundary(p, k)..], 0, i) == KeySpan(p, k, i)
  {
    RestRenderWithin(p, k, i, last);
    KeySpanWithin(p, k, i, last);
  }

  /** KeySpan when the offset names a boundary among the segments from k on. */
  lemma KeySpanWithin(p: string, k: nat, i: int, last: nat)
    requires 0 < k < |Segments(p)|
    requires last == LastPos(|Segments(p)| - k, i) && last <= |Segments(p)| - k
    ensures KeySpan(p, k, i) == Ok(Render(p, k, k + last))
  {
  }

  /** Within range, the rest's span is the rendering of segments k .. k + last of p. */
  lemma RestRenderWithin(p: string, k: nat, i: int, last: nat)
    requires 0 < k < |Segments(p)|
    requires last == LastPos(|Segments(p)| - k, i) && last <= |Segments(p)| - k
    ensures Boundary(p, k) < |p|
    ensures SpanToString(p[Boundary(p, k)..], 0, i) == Ok(Render(p, k, k + last))
  {
    RestFromBoundary(p, k);
    var rest := p[Boundary(p, k)..];
    assert |Segments(rest)| == |Segments(p)| - k;
    SpanResult(rest, 0, i);
    RestRender(p, k, last);
  }

  /** The rest's segments 0 .. last render as segments k .. k + last of p. */
  lemma RestRender(p: string, k: nat, last: nat)
    requires 0 < k < |Segments(p)| && last <= |Segments(p)| - k
    requires Boundary(p, k) < |p|
    requires Lead(p[Boundary(p, k)..]) == 1 && Segments(p[Boundary(p, k)..]) == Segments(p)[k..]
    ensures Render(p[Boundary(p, k)..], 0, last) == Render(p, k, k + last)
  {
    var rest := p[Boundary(p, k)..];
    if last > 0 {
      assert Segments(rest)[0..last] == Segments(p)[k..k + last];
      assert rest[..Lead(rest)] == [Delim];
    }
  }

  /** The outcome of SpanToString as one expression. */
  lemma SpanResult(p: string, f: int, l: int)
    ensures var n := |Segments(p)|;
            var first, last := FirstPos(n, f), LastPos(n, l);
            SpanToString(p, f, l) ==
              if 0 <= first < n && 0 <= last <= n && first <= last
              then Ok(Render(p, first, last)) else Err(OutOfBounds)
  {
  }

  /** Boundaries given as plain positions, first before the end and last after the start, read as their rendering. */
  lemma SpanInRange(p: string, f: nat, l: nat)
    requires f < |Segments(p)| && 0 < l <= |Segments(p)| && f <= l
    ensures SpanToString(p, f, l) == Ok(Render(p, f, l))
  {
    SpanResult(p, f, l);
    var n := |Segments(p)|;
    assert FirstPos(n, f) == f && LastPos(n, l) == l;
  }

  /** Two adjacent spans read together as the span that covers both. */
  lemma SpanConcat(p: string, f: nat, m: nat, l: nat)
    requires f < m < l <= |Segments(p)|
    ensures SpanToString(p, f, m).Ok? && SpanToString(p, m, l).Ok? && SpanToString(p, f, l).Ok?
    ensures SpanToString(p, f, m).value + SpanToString(p, m, l).value == SpanToString(p, f, l).value
  {
    BoundaryMonotone(p, f, m);
    BoundaryMonotone(p, m, l);
    SliceConcat(p, Boundary(p, f), Boundary(p, m), Boundary(p, l));
  }

  lemma SliceConcat(s: string, a: nat, b: nat, c: nat)
    requires a <= b <= c <= |s|
    ensures s[a..b] + s[b..c] == s[a..c]
  {
  }

  /** Index pair (0, 0) spans the whole path. */
  lemma WholePath(p: string)
    ensures SpanToString(p, 0, 0) == Ok(p)
  {
    BoundaryFacts(p, 0);
    assert p[0..|p|] == p;
  }
}
