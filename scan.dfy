/**
 * Character scans over the stripped text of a path: each walks from one
 * delimiter to the next one character at a time, and each is
 * proved to agree with the `Split` view of the same text.
 */
module Scan {
  import opened Outcomes
  import opened Paths

  /** Offset of the first delimiter in s, or |s| when s has none. */
  function IndexOfDelim(s: string): (j: nat)
    ensures j <= |s|
    ensures j < |s| ==> s[j] == Delim
    ensures Delim !in s[..j]
    decreases |s|
  {
    if s == [] || s[0] == Delim then 0
    else
      var j' := IndexOfDelim(s[1..]);
      assert s[..1 + j'] == [s[0]] + s[1..][..j'];
      1 + j'
  }

  /** The first segment of s ends at its first delimiter, and the rest of the segments follow it. */
  lemma SplitAtDelim(s: string)
    ensures Split(s)[0] == s[..IndexOfDelim(s)]
    ensures IndexOfDelim(s) == |s| ==> Split(s) == [s]
    ensures IndexOfDelim(s) < |s| ==>
              Split(s) == [s[..IndexOfDelim(s)]] + Split(s[IndexOfDelim(s) + 1..])
  {
    SplitFirst(s, IndexOfDelim(s));
  }

  /** Number of segments of s: one more than the delimiters passed on the way to its end. */
  function CountSegments(s: string): (n: nat)
    ensures n == |Split(s)|
    decreases |s|
  {
    var j := IndexOfDelim(s);
    SplitAtDelim(s);
    if j == |s| then 1 else 1 + CountSegments(s[j + 1..])
  }

  /** Text of segment k of s, reached by skipping k delimiters; None when s has no segment k. */
  function SegmentAt(s: string, k: nat): (r: Option<string>)
    ensures r.Some? <==> k < |Split(s)|
    ensures r.Some? ==> r.value == Split(s)[k]
    decreases k
  {
    var j := IndexOfDelim(s);
    SplitAtDelim(s);
    if k == 0 then Some(s[..j])
    else if j == |s| then None
    else
      SplitStep(s, j, k);
      SegmentAt(s[j + 1..], k - 1)
  }

  /** Past the first delimiter j of s, segment k of s is segment k - 1 of the rest. */
  lemma SplitStep(s: string, j: nat, k: nat)
    requires 0 < k && j < |s| && Split(s) == [s[..j]] + Split(s[j + 1..])
    ensures k < |Split(s)| <==> k - 1 < |Split(s[j + 1..])|
    ensures k < |Split(s)| ==> Split(s)[k] == Split(s[j + 1..])[k - 1]
  {
  }

  /** Offset in s just past segment k (its closing delimiter, or |s| for the last segment). */
  function SegmentEnd(s: string, k: nat): (e: nat)
    requires k < |Split(s)|
    ensures e <= |s|
    ensures e == |Join(Split(s)[..k + 1])|
    decreases k
  {
    var j := IndexOfDelim(s);
    SplitAtDelim(s);
    if k == 0 then
      assert Split(s)[..1] == [Split(s)[0]];
      j
    else
      JoinStep(s, j, k);
      j + 1 + SegmentEnd(s[j + 1..], k - 1)
  }

  /** Past the first delimiter j of s, the first k + 1 segments join as segment 0, a delimiter and k segments of the rest. */
  lemma JoinStep(s: string, j: nat, k: nat)
    requires 0 < k < |Split(s)| && j < |s| && Split(s) == [s[..j]] + Split(s[j + 1..])
    ensures k - 1 < |Split(s[j + 1..])|
    ensures Join(Split(s)[..k + 1]) == s[..j] + [Delim] + Join(Split(s[j + 1..])[..k])
  {
    var rest := s[j + 1..];
    assert Split(s)[..k + 1] == [s[..j]] + Split(rest)[..k];
  }

  /** Number of the first segment of s equal to key, found by comparing one segment at a time. */
  function FindKey(s: string, key: string): (r: Option<nat>)
    ensures r.None? <==> key !in Split(s)
    ensures r.Some? ==> r.value < |Split(s)| && Split(s)[r.value] == key
    ensures r.Some? ==> key !in Split(s)[..r.value]
    decreases |s|
  {
    var j := IndexOfDelim(s);
    SplitAtDelim(s);
    if s[..j] == key then Some(0)
    else if j == |s| then None
    else match FindKey(s[j + 1..], key)
      case None =>
        NotInCons(s[..j], Split(s[j + 1..]), key);
        None
      case Some(m) =>
        FoundInCons(s[..j], Split(s[j + 1..]), key, m);
        Some(m + 1)
  }

  lemma NotInCons(x: string, rest: seq<string>, key: string)
    requires key != x && key !in rest
    ensures key !in [x] + rest
  {
  }

  lemma FoundInCons(x: string, rest: seq<string>, key: string, m: nat)
    requires key != x && m < |rest| && rest[m] == key && key !in rest[..m]
    ensures key in [x] + rest
    ensures ([x] + rest)[m + 1] == key && key !in ([x] + rest)[..m + 1]
  {
    assert ([x] + rest)[..m + 1] == [x] + rest[..m];
  }
}
