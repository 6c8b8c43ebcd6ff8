/**
 * One row of a lookup table, in general: once the segments of a path are
 * known, what each entry point returns for an index or a key follows from
 * them alone. The table lemmas apply these to the library's fixed inputs.
 */
module Rows {
  import opened Outcomes
  import opened Paths
  import opened Indexer
  import opened Spans
  import opened Coerce
  import opened Typed

  /** Index i names position pos of segs, counting from the front or from the back. */
  predicate Names(segs: seq<string>, i: int, pos: nat)
  {
    pos < |segs| && (i == pos || i == pos - |segs|)
  }

  /** Segment j is the first one equal to key, and another segment follows it. */
  predicate FirstMatch(segs: seq<string>, key: string, j: nat)
  {
    j + 1 < |segs| && segs[j] == key && key !in segs[..j]
  }

  predicate StringAtCase(p: string, segs: seq<string>, i: int, pos: nat, v: string)
  {
    Segments(p) == segs && Names(segs, i, pos) && segs[pos] == v
  }

  lemma StringAt(p: string, segs: seq<string>, i: int, pos: nat, v: string)
    requires StringAtCase(p, segs, i, pos, v)
    ensures SegmentToString(p, i) == Ok(v)
  {
  }

  predicate StringOutCase(p: string, segs: seq<string>, i: int)
  {
    Segments(p) == segs && !(-|segs| <= i < |segs|)
  }

  lemma StringOut(p: string, segs: seq<string>, i: int)
    requires StringOutCase(p, segs, i)
    ensures SegmentToString(p, i) == Err(OutOfBounds)
  {
  }

  predicate IntAtCase(p: string, segs: seq<string>, i: int, pos: nat, kind: IntKind, seg: string, v: int)
  {
    Segments(p) == segs && Names(segs, i, pos) && segs[pos] == seg &&
    LeadingInt(seg, kind.signed) == Some(v) && InRange(v, kind)
  }

  lemma IntAt(p: string, segs: seq<string>, i: int, pos: nat, kind: IntKind, seg: string, v: int)
    requires IntAtCase(p, segs, i, pos, kind, seg, v)
    ensures SegmentToInt(p, i, kind) == Ok(v)
  {
  }

  predicate IntFailsCase(p: string, segs: seq<string>, i: int, pos: nat, kind: IntKind, seg: string)
  {
    Segments(p) == segs && Names(segs, i, pos) && segs[pos] == seg &&
    (LeadingInt(seg, kind.signed).None? || !InRange(LeadingInt(seg, kind.signed).value, kind))
  }

  lemma IntFails(p: string, segs: seq<string>, i: int, pos: nat, kind: IntKind, seg: string)
    requires IntFailsCase(p, segs, i, pos, kind, seg)
    ensures SegmentToInt(p, i, kind) == Err(ConversionFailed)
  {
  }

  predicate IntOutCase(p: string, segs: seq<string>, i: int, kind: IntKind)
  {
    Segments(p) == segs && !(-|segs| <= i < |segs|)
  }

  lemma IntOut(p: string, segs: seq<string>, i: int, kind: IntKind)
    requires IntOutCase(p, segs, i, kind)
    ensures SegmentToInt(p, i, kind) == Err(OutOfBounds)
  {
  }

  predicate BoolAtCase(p: string, segs: seq<string>, i: int, pos: nat, seg: string, r: Result<bool>)
  {
    Segments(p) == segs && Names(segs, i, pos) && segs[pos] == seg &&
    CoerceBool(seg) == r
  }

  lemma BoolAt(p: string, segs: seq<string>, i: int, pos: nat, seg: string, r: Result<bool>)
    requires BoolAtCase(p, segs, i, pos, seg, r)
    ensures SegmentToBool(p, i) == r
  {
  }

  predicate BoolOutCase(p: string, segs: seq<string>, i: int)
  {
    Segments(p) == segs && !(-|segs| <= i < |segs|)
  }

  lemma BoolOut(p: string, segs: seq<string>, i: int)
    requires BoolOutCase(p, segs, i)
    ensures SegmentToBool(p, i) == Err(OutOfBounds)
  {
  }

  predicate SubStringAtCase(p: string, segs: seq<string>, key: string, j: nat, v: string)
  {
    Segments(p) == segs && FirstMatch(segs, key, j) && segs[j + 1] == v
  }

  lemma SubStringAt(p: string, segs: seq<string>, key: string, j: nat, v: string)
    requires SubStringAtCase(p, segs, key, j, v)
    ensures SubSegToString(p, key) == Ok(v)
  {
  }

  predicate SubStringMissingCase(p: string, segs: seq<string>, key: string)
  {
    Segments(p) == segs && key !in segs[..|segs| - 1]
  }

  lemma SubStringMissing(p: string, segs: seq<string>, key: string)
    requires SubStringMissingCase(p, segs, key)
    ensures SubSegToString(p, key) == Err(KeyNotFound)
  {
  }

  predicate SubIntAtCase(p: string, segs: seq<string>, key: string, j: nat, kind: IntKind, seg: string, v: int)
  {
    Segments(p) == segs && FirstMatch(segs, key, j) && segs[j + 1] == seg &&
    LeadingInt(seg, kind.signed) == Some(v) && InRange(v, kind)
  }

  lemma SubIntAt(p: string, segs: seq<string>, key: string, j: nat, kind: IntKind, seg: string, v: int)
    requires SubIntAtCase(p, segs, key, j, kind, seg, v)
    ensures SubSegToInt(p, key, kind) == Ok(v)
  {
  }

  predicate SubIntFailsCase(p: string, segs: seq<string>, key: string, j: nat, kind: IntKind, seg: string)
  {
    Segments(p) == segs && FirstMatch(segs, key, j) && segs[j + 1] == seg &&
    (LeadingInt(seg, kind.signed).None? || !InRange(LeadingInt(seg, kind.signed).value, kind))
  }

  lemma SubIntFails(p: string, segs: seq<string>, key: string, j: nat, kind: IntKind, seg: string)
    requires SubIntFailsCase(p, segs, key, j, kind, seg)
    ensures SubSegToInt(p, key, kind) == Err(ConversionFailed)
  {
  }

  predicate SubIntMissingCase(p: string, segs: seq<string>, key: string, kind: IntKind)
  {
    Segments(p) == segs && key !in segs[..|segs| - 1]
  }

  lemma SubIntMissing(p: string, segs: seq<string>, key: string, kind: IntKind)
    requires SubIntMissingCase(p, segs, key, kind)
    ensures SubSegToInt(p, key, kind) == Err(KeyNotFound)
  {
  }

  predicate SubBoolAtCase(p: string, segs: seq<string>, key: string, j: nat, seg: string, r: Result<bool>)
  {
    Segments(p) == segs && FirstMatch(segs, key, j) && segs[j + 1] == seg &&
    CoerceBool(seg) == r
  }

  lemma SubBoolAt(p: string, segs: seq<string>, key: string, j: nat, seg: string, r: Result<bool>)
    requires SubBoolAtCase(p, segs, key, j, seg, r)
    ensures SubSegToBool(p, key) == r
  {
  }

  predicate SubBoolMissingCase(p: string, segs: seq<string>, key: string)
  {
    Segments(p) == segs && key !in segs[..|segs| - 1]
  }

  lemma SubBoolMissing(p: string, segs: seq<string>, key: string)
    requires SubBoolMissingCase(p, segs, key)
    ensures SubSegToBool(p, key) == Err(KeyNotFound)
  {
  }

  predicate SpanFromRootCase(p: string, segs: seq<string>, f: int, l: int, last: nat, parts: seq<string>, v: string)
  {
    Segments(p) == segs && |p| > 0 && p[0] == Delim &&
    FirstPos(|segs|, f) == 0 && last == LastPos(|segs|, l) && 0 < last <= |segs| &&
    segs[..last] == parts && v == [Delim] + Join(parts)
  }

  /** A span that starts at the first segment, of a path that starts with a delimiter. */
  lemma SpanFromRoot(p: string, segs: seq<string>, f: int, l: int, last: nat, parts: seq<string>, v: string)
    requires SpanFromRootCase(p, segs, f, l, last, parts, v)
    ensures SpanToString(p, f, l) == Ok(v)
  {
    SpanInRange(p, 0, last);
    assert p[..Lead(p)] == [Delim];
    assert segs[0..last] == parts;
  }

  predicate SpanFromStartCase(p: string, segs: seq<string>, f: int, l: int, last: nat, parts: seq<string>, v: string)
  {
    (Segments(p) == segs && (|p| == 0 || p[0] != Delim)) &&
    FirstPos(|segs|, f) == 0 && last == LastPos(|segs|, l) && 0 < last <= |segs| &&
    segs[..last] == parts && v == Join(parts)
  }

  /** A span that starts at the first segment, of a path that does not start with a delimiter. */
  lemma SpanFromStart(p: string, segs: seq<string>, f: int, l: int, last: nat, parts: seq<string>, v: string)
    requires SpanFromStartCase(p, segs, f, l, last, parts, v)
    ensures SpanToString(p, f, l) == Ok(v)
  {
    SpanInRange(p, 0, last);
    assert p[..Lead(p)] == [];
    assert segs[0..last] == parts;
  }

  predicate SpanFromInnerCase(p: string, segs: seq<string>, f: int, l: int, first: nat, last: nat, parts: seq<string>, v: string)
  {
    Segments(p) == segs &&
    first == FirstPos(|segs|, f) && last == LastPos(|segs|, l) && 0 < first < last <= |segs| &&
    segs[first..last] == parts && v == [Delim] + Join(parts)
  }

  /** A span that starts at an inner segment. */
  lemma SpanFromInner(p: string, segs: seq<string>, f: int, l: int, first: nat, last: nat, parts: seq<string>, v: string)
    requires SpanFromInnerCase(p, segs, f, l, first, last, parts, v)
    ensures SpanToString(p, f, l) == Ok(v)
  {
    SpanInRange(p, first, last);
    RenderInner(p, segs, first, last);
  }

  predicate SpanEmptyCase(p: string, segs: seq<string>, f: int, l: int, first: nat)
  {
    Segments(p) == segs &&
    first == FirstPos(|segs|, f) == LastPos(|segs|, l) && first < |segs|
  }

  lemma SpanEmpty(p: string, segs: seq<string>, f: int, l: int, first: nat)
    requires SpanEmptyCase(p, segs, f, l, first)
    ensures SpanToString(p, f, l) == Ok([])
  {
  }

  predicate SpanOutCase(p: string, segs: seq<string>, f: int, l: int)
  {
    Segments(p) == segs &&
    (var first, last := FirstPos(|segs|, f), LastPos(|segs|, l); !(0 <= first < |segs| && 0 <= last <= |segs| && first <= last))
  }

  lemma SpanOut(p: string, segs: seq<string>, f: int, l: int)
    requires SpanOutCase(p, segs, f, l)
    ensures SpanToString(p, f, l) == Err(OutOfBounds)
  {
  }

  predicate SubSpanAtCase(p: string, segs: seq<string>, n: nat, key: string, i: int, j: nat, first: nat, last: nat,
                  parts: seq<string>, v: string)
  {
    Segments(p) == segs && |segs| == n && FirstMatch(segs, key, j) &&
    first == j + 1 && last == LastPos(n - first, i) && 0 < last <= n - first &&
    segs[first..first + last] == parts && v == [Delim] + Join(parts)
  }

  lemma SubSpanAt(p: string, segs: seq<string>, n: nat, key: string, i: int, j: nat, first: nat, last: nat,
                  parts: seq<string>, v: string)
    requires SubSpanAtCase(p, segs, n, key, i, j, first, last, parts, v)
    ensures SubSpanToString(p, key, i) == Ok(v)
  {
    SubSpanIsSpan(p, key, i, j);
    KeySpanWithin(p, first, i, last);
    RenderInner(p, segs, first, first + last);
  }

  lemma RenderInner(p: string, segs: seq<string>, f: nat, l: nat)
    requires Segments(p) == segs && 0 < f < l <= |segs|
    ensures Render(p, f, l) == [Delim] + Join(segs[f..l])
  {
  }

  predicate SubSpanOutCase(p: string, segs: seq<string>, key: string, i: int, j: nat)
  {
    Segments(p) == segs && FirstMatch(segs, key, j) &&
    (var last := LastPos(|segs| - (j + 1), i); !(0 <= last <= |segs| - (j + 1)))
  }

  lemma SubSpanOut(p: string, segs: seq<string>, key: string, i: int, j: nat)
    requires SubSpanOutCase(p, segs, key, i, j)
    ensures SubSpanToString(p, key, i) == Err(OutOfBounds)
  {
    SubSpanIsSpan(p, key, i, j);
  }

  predicate SubSpanMissingCase(p: string, segs: seq<string>, key: string, i: int)
  {
    Segments(p) == segs && key !in segs[..|segs| - 1]
  }

  lemma SubSpanMissing(p: string, segs: seq<string>, key: string, i: int)
    requires SubSpanMissingCase(p, segs, key, i)
    ensures SubSpanToString(p, key, i) == Err(KeyNotFound)
  {
  }
}
