/**
 * Single-segment lookup: by a signed index (negative counts from the end,
 * -1 being the last segment) and by key (the segment right after the first
 * segment equal to the key).
 */
module Indexer {
  import opened Outcomes
  import opened Paths
  import opened Scan

  /**
   * Segment i of path p. A non-negative i counts from the front; a negative
   * i counts from the back, so it selects segment n + i of the n segments.
   */
  function SegmentToString(p: string, i: int): (r: Result<string>)
    ensures r.Ok? <==> -|Segments(p)| <= i < |Segments(p)|
    ensures r.Ok? && i >= 0 ==> r.value == Segments(p)[i]
    ensures r.Ok? && i < 0 ==> r.value == Segments(p)[|Segments(p)| + i]
    ensures r.Err? ==> r.error == OutOfBounds
  {
    var q := Strip(p);
    var k := if i >= 0 then i else CountSegments(q) + i;
    if k < 0 then Err(OutOfBounds)
    else match SegmentAt(q, k)
      case None => Err(OutOfBounds)
      case Some(seg) => Ok(seg)
  }

  /**
   * The segment right after the first segment of p that equals key. Fails
   * when no segment equals key or when the first match is the last segment.
   */
  function SubSegToString(p: string, key: string): (r: Result<string>)
    ensures r.Ok? <==> key in Segments(p)[..|Segments(p)| - 1]
    ensures forall j :: 0 <= j < |Segments(p)| - 1 && Segments(p)[j] == key && key !in Segments(p)[..j] ==>
              r == Ok(Segments(p)[j + 1])
    ensures r.Err? ==> r.error == KeyNotFound
  {
    var q := Strip(p);
    match FindKey(q, key)
    case None => Err(KeyNotFound)
    case Some(j) =>
      match SegmentAt(q, j + 1)
      case None => Err(KeyNotFound)
      case Some(seg) => Ok(seg)
  }

  /** A negative index and the non-negative index it stands for select the same segment. */
  lemma NegativeIsFromEnd(p: string, k: nat)
    requires k < |Segments(p)|
    ensures SegmentToString(p, k - |Segments(p)|) == SegmentToString(p, k)
  {
  }

  /** Every index outside [-n, n) fails with OutOfBounds. */
  lemma OutOfRangeFails(p: string, i: int)
    requires i >= |Segments(p)| || i < -|Segments(p)|
    ensures SegmentToString(p, i) == Err(OutOfBounds)
  {
  }

  /** An extracted segment holds no delimiter, so looking it up again at 0 or -1 gives it back. */
  lemma SegmentIdempotent(p: string, i: int)
    requires SegmentToString(p, i).Ok?
    ensures var s := SegmentToString(p, i).value;
            SegmentToString(s, 0) == Ok(s) && SegmentToString(s, -1) == Ok(s)
  {
    var s := SegmentToString(p, i).value;
    assert Delim !in s;
    assert Strip(s) == s;
    SegmentsOf(s, [s]);
  }

  /** Key lookup agrees with index lookup one past the first match. */
  lemma SubSegIsNextSegment(p: string, key: string, j: nat)
    requires j < |Segments(p)| - 1
    requires Segments(p)[j] == key && key !in Segments(p)[..j]
    ensures SubSegToString(p, key) == SegmentToString(p, j + 1)
  {
  }
}
