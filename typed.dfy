/**
 * The typed entry points: a segment chosen by signed index or by key, then
 * coerced to an integer kind or to a boolean. A lookup failure is reported
 * as such; only a segment that was found is coerced.
 */
module Typed {
  import opened Outcomes
  import opened Paths
  import opened Indexer
  import opened Coerce

  /** Segment i of p read as an integer of the given kind. */
  function SegmentToInt(p: string, i: int, kind: IntKind): (r: Result<int>)
    ensures !(-|Segments(p)| <= i < |Segments(p)|) ==> r == Err(OutOfBounds)
    ensures 0 <= i < |Segments(p)| ==> r == CoerceInt(Segments(p)[i], kind)
    ensures -|Segments(p)| <= i < 0 ==> r == CoerceInt(Segments(p)[|Segments(p)| + i], kind)
    ensures r.Ok? ==> InRange(r.value, kind)
  {
    match SegmentToString(p, i)
    case Err(e) => Err(e)
    case Ok(seg) => CoerceInt(seg, kind)
  }

  /** Segment i of p read as a boolean. */
  function SegmentToBool(p: string, i: int): (r: Result<bool>)
    ensures !(-|Segments(p)| <= i < |Segments(p)|) ==> r == Err(OutOfBounds)
    ensures 0 <= i < |Segments(p)| ==> r == CoerceBool(Segments(p)[i])
    ensures -|Segments(p)| <= i < 0 ==> r == CoerceBool(Segments(p)[|Segments(p)| + i])
  {
    match SegmentToString(p, i)
    case Err(e) => Err(e)
    case Ok(seg) => CoerceBool(seg)
  }

  /** The segment after the first segment equal to key, read as an integer of the given kind. */
  function SubSegToInt(p: string, key: string, kind: IntKind): (r: Result<int>)
    ensures key !in Segments(p)[..|Segments(p)| - 1] ==> r == Err(KeyNotFound)
    ensures forall j :: 0 <= j < |Segments(p)| - 1 && Segments(p)[j] == key && key !in Segments(p)[..j] ==>
              r == CoerceInt(Segments(p)[j + 1], kind)
    ensures r.Ok? ==> InRange(r.value, kind)
  {
    match SubSegToString(p, key)
    case Err(e) => Err(e)
    case Ok(seg) => CoerceInt(seg, kind)
  }

  /** The segment after the first segment equal to key, read as a boolean. */
  function SubSegToBool(p: string, key: string): (r: Result<bool>)
    ensures key !in Segments(p)[..|Segments(p)| - 1] ==> r == Err(KeyNotFound)
    ensures forall j :: 0 <= j < |Segments(p)| - 1 && Segments(p)[j] == key && key !in Segments(p)[..j] ==>
              r == CoerceBool(Segments(p)[j + 1])
  {
    match SubSegToString(p, key)
    case Err(e) => Err(e)
    case Ok(seg) => CoerceBool(seg)
  }
}
