# parth: path segments, spans and typed coercion

`parth` reads values out of URL-style paths such as `/user/42/posts`. A path
is cut into **segments**: one leading `/` is dropped and the rest is split on
every `/`, so `//` and a trailing `/` produce empty segments that count like
any other. On top of that the library offers

- **`SegmentToString(path, i)`**: segment `i`, where a negative `i` counts from
  the back (`-1` is the last segment);
- **`SubSegToString(path, key)`**: the segment right after the first segment
  exactly equal to `key`;
- **`SpanToString(path, first, last)`**: the verbatim text of the path from the
  start of segment `first` up to boundary `last` (exclusive; `0` means the end
  of the path, negative values count from the back);
- **`SubSpanToString(path, key, i)`**: the same kind of span, taken from the
  text that follows the first segment equal to `key`;
- **typed variants** (`SegmentToInt8` … `SubSegToUint64`, `SegmentToBool`,
  `SubSegToBool`): the selected segment coerced to an integer of a given
  width and signedness, or to a boolean.

The only source of this model is the library's table-driven functional test
suite, `parth_func_test.go`; the library's implementation is not part of
this model. The tables fix the rules below except those listed under
"## Left out", and every row of every non-float table is proved of the
model as a lemma.

## Layout

| file | module | contents |
|---|---|---|
| `outcomes.dfy` | `Outcomes` | `Error` (`OutOfBounds`, `KeyNotFound`, `ConversionFailed`), `Result<T>`, `Option<T>` |
| `paths.dfy` | `Paths` | the reference view: `Strip`, `Split`, `Join`, `Segments`, and the round trips between `Split` and `Join` |
| `scan.dfy` | `Scan` | character scans that walk from delimiter to delimiter (`IndexOfDelim`, `CountSegments`, `SegmentAt`, `SegmentEnd`, `FindKey`), each proved equal to the `Split` view |
| `indexer.dfy` | `Indexer` | `SegmentToString` and `SubSegToString` |
| `spans.dfy` | `Spans` | segment boundaries (`Boundary`, `Offset`), `SpanToString`, `SubSpanToString` and their reference `Render`/`KeySpan` |
| `coerce.dfy` | `Coerce` | the leading-integer scan, the range check per `IntKind`, the boolean spellings |
| `typed.dfy` | `Typed` | `SegmentToInt`, `SubSegToInt`, `SegmentToBool`, `SubSegToBool` |
| `rows.dfy` | `Rows` | what any entry point returns once the segments of a path are known |
| `table_facts.dfy` | `TableFacts` | facts about the fixed inputs of the tables (segments of each path, integer read from each literal) |
| `tables.dfy` | `Tables` | one lemma per table row, named after its line, and one lemma per table |

## The rules, as modelled

- Segments: `Segments(p) = Split(Strip(p))`, where `Strip` drops one leading
  `/`. `Split` always yields at least one piece, so `"/"` and `""` each have
  the single empty segment.
- Index lookup succeeds exactly when `-n <= i < n` for `n` segments; a
  failure is `OutOfBounds`.
- Key lookup matches whole segments only and uses the first match; it fails
  with `KeyNotFound` when no segment but the last equals the key.
- Spans: with `n` segments, `first` stands for `f` or `n + f`; `last` stands
  for `l` when positive, `n` when `0`, `n + l` when negative. The span exists
  when `0 <= first < n`, `0 <= last <= n` and `first <= last`, and is then
  `p[Boundary(first)..Boundary(last)]`: boundary `0` is the start of the
  path, boundary `n` its end, boundary `k` the `/` in front of segment `k`.
  A span from segment 0 keeps the path's own leading `/`.
- Key spans: the span, from boundary 0 to offset `i`, of the text that starts
  at the `/` after the first segment equal to the key.
- Integers: the first run of decimal digits is read, whatever comes before
  or after it; a `.` directly followed by a digit before any digit reads as
  `0`; a `-` directly before the run negates it, for signed kinds only; no
  digit at all fails. The value must then fit the kind's width and
  signedness, else `ConversionFailed`.
- Booleans: exactly `1 t T true TRUE True` and `0 f F false FALSE False`.

## Model

| member | source | states |
|---|---|---|
| Paths.Split | parth_func_test.go:22-40 | there is always at least one segment, and no segment holds a `/` |
| Paths.JoinSplit | parth_func_test.go:22-40 | writing the segments of any text back out with `/` between them gives the text again: empty segments from `//` or a trailing `/` are kept, nothing is lost |
| Paths.SplitJoin | parth_func_test.go:22-40 | splitting the join of delimiter-free segments gives exactly those segments back |
| Paths.SegmentsOf | parth_func_test.go:22-40 | a path whose stripped text is the join of delimiter-free pieces has exactly those pieces as its segments |
| Paths.SplitCons | parth_func_test.go:22-40 | a delimiter-free piece followed by `/` is the first segment and the segments of the rest follow it |
| Paths.JoinAppend | parth_func_test.go:813-838 | joining two lists of segments puts exactly one `/` between their joins |
| Scan.IndexOfDelim | parth_func_test.go:22-40 | the scan stops at the first `/` (or the end), with no `/` before it |
| Scan.CountSegments | parth_func_test.go:22-40 | the segment count found by scanning equals the number of segments of the reference split |
| Scan.SegmentAt | parth_func_test.go:22-40 | scanning to segment k finds it exactly when k is below the segment count, and then finds the reference segment k |
| Scan.SegmentEnd | parth_func_test.go:813-838 | the scan to the end of segment k stops at the length of the join of segments 0..k |
| Scan.FindKey | parth_func_test.go:425-432 | the scan for a key finds nothing exactly when no segment equals it, and otherwise the number of its first matching segment |
| Indexer.SegmentToString | parth_func_test.go:22-44 | succeeds exactly for `-n <= i < n`; then a non-negative `i` gives segment `i` and a negative one segment `n + i`; every failure is `OutOfBounds` |
| Indexer.NegativeIsFromEnd | parth_func_test.go:31-40 | index `k - n` selects the same segment as index `k` |
| Indexer.OutOfRangeFails | parth_func_test.go:28-38 | every index outside `[-n, n)` fails with `OutOfBounds` |
| Indexer.SegmentIdempotent | parth_func_test.go:22-40 | a selected segment, taken as a path of its own, is its own segment 0 and segment -1 |
| Indexer.SubSegToString | parth_func_test.go:425-436 | succeeds exactly when the key equals some segment other than the last; then gives the segment after the first match; every failure is `KeyNotFound` |
| Indexer.SubSegIsNextSegment | parth_func_test.go:425-432 | key lookup gives what index lookup gives one past the key's first match |
| Spans.Offset | parth_func_test.go:813-842 | the offset found by scanning to the end of segment k - 1 is the reference boundary k |
| Spans.BoundaryFacts | parth_func_test.go:813-838 | boundary 0 is the start of the path, boundary n its end, and a boundary between segments sits on the `/` in front of its segment |
| Spans.BoundaryMonotone | parth_func_test.go:813-838 | boundaries never decrease and never pass the end of the path |
| Spans.SliceIsRender | parth_func_test.go:813-838 | the text between two boundaries is the segments between them joined by `/`, behind the path's own leading `/` when starting at segment 0 and behind a `/` otherwise |
| Spans.SpanToString | parth_func_test.go:813-842 | succeeds exactly when `first` names a segment, `last` names a boundary and `first <= last`; the result is then the verbatim text between the two boundaries and equals the rendering of those segments; every failure is `OutOfBounds` |
| Spans.SpanResult | parth_func_test.go:813-838 | the whole outcome of a span as one expression over the reference rendering |
| Spans.SpanInRange | parth_func_test.go:813-838 | plain positions with `first < n`, `0 < last <= n` and `first <= last` give their rendering |
| Spans.SpanConcat | parth_func_test.go:813-838 | two adjacent spans read one after the other are the span that covers both |
| Spans.WholePath | parth_func_test.go:813-826 | indexes `(0, 0)` give the whole path back, leading `/` included |
| Spans.RestFromBoundary | parth_func_test.go:868-884 | the text from the `/` in front of segment k starts with `/` and has exactly segments k.. of the path |
| Spans.KeySpanIsSpan | parth_func_test.go:868-880 | a key span is the span of the whole path from segment k to the boundary its offset names, and fails when the offset names none |
| Spans.SubSpanToString | parth_func_test.go:868-884 | fails with `KeyNotFound` when no segment but the last equals the key, and succeeds only when one does |
| Spans.SubSpanFromRest | parth_func_test.go:868-884 | after the key's first match at segment j, the key span is the span from boundary 0 of the text that starts at the `/` after segment j |
| Spans.RestSpanIsSpan | parth_func_test.go:868-880 | a span of the text from boundary k on equals the key span of the whole path from segment k |
| Spans.SubSpanIsSpan | parth_func_test.go:868-880 | after the key's first match at segment j, the key span equals the reference key span of the path from segment j + 1 |
| Coerce.RunEnd | parth_func_test.go:69-86 | a run of digits extends up to the first non-digit or the end |
| Coerce.FindLiteral | parth_func_test.go:69-86 | the scan reports no digit exactly when there is none; otherwise either a `.` followed by a digit with no digit before it, or the first maximal run of digits with neither a digit nor such a `.` before it |
| Coerce.LeadingInt | parth_func_test.go:198-215 | no reading exactly when the segment has no digit; an unsigned reading is never negative |
| Coerce.FindLiteralSkips | parth_func_test.go:69-86 | characters that are neither digits nor the start of a fraction do not change what the scan finds |
| Coerce.ReadsDigitRun | parth_func_test.go:198-215 | a run of digits reads as its decimal value whatever comes before it (without digits or `.`) and after it (not a digit); a `-` right before it negates it for signed kinds only |
| Coerce.ReadsFraction | parth_func_test.go:75-76 | a `.` and a digit before any other digit read as 0, whatever follows |
| Coerce.UnsignedIsMagnitude | parth_func_test.go:77-78 | the signed and the unsigned reading exist together and differ only in sign |
| Coerce.DigitsValueLowerBound | parth_func_test.go:606 | digits not starting with `0` are worth at least 10 to the power of their count less one |
| Coerce.ReadsLongRun | parth_func_test.go:606 | a run of digits without a leading zero, alone in its segment, has a reading, and that reading is at least 10 to the power of its length less one |
| Coerce.LongRunFails | parth_func_test.go:606 | a run of more than twenty digits without a leading zero fails to convert with `ConversionFailed` for every kind, because the largest value any kind holds, 2^64-1, has twenty digits |
| Coerce.FormatDecimal | parth_func_test.go:179 | the decimal text of n is all digits and reads back as n |
| Coerce.ReadsNonNegative | parth_func_test.go:69-86 | any non-negative number written in decimal, between text that does not continue it, reads back as itself for both kinds |
| Coerce.ReadsNegative | parth_func_test.go:206 | `-` followed by the decimal text of m reads as `-m` for signed kinds |
| Coerce.ReadsFormatted | parth_func_test.go:198-215 | any integer written in decimal reads back as itself (a negative one for signed kinds) |
| Coerce.Pow2Of64 | parth_func_test.go:179 | the bounds of the 64-bit kinds: 2^63 and 2^64 |
| Coerce.InRangeWidens | parth_func_test.go:198-215 | a value that fits a kind fits every wider kind of the same signedness |
| Coerce.CoerceInt | parth_func_test.go:198-216 | succeeds exactly when the segment has a reading that fits the kind, and then gives that reading; every failure is `ConversionFailed` |
| Coerce.CoerceReadsFormatted | parth_func_test.go:198-215 | coercion gives back any in-range integer written in decimal, whatever non-numeric text surrounds it |
| Coerce.CoerceBool | parth_func_test.go:317-331 | succeeds exactly on the twelve spellings, true exactly on `1 t T true TRUE True`; every failure is `ConversionFailed` |
| Typed.SegmentToInt | parth_func_test.go:198-220 | an index outside `[-n, n)` fails with `OutOfBounds`; otherwise the result is the coercion of the selected segment, and a value returned always fits the kind |
| Typed.SegmentToBool | parth_func_test.go:317-335 | an index outside `[-n, n)` fails with `OutOfBounds`; otherwise the result is the boolean coercion of the selected segment |
| Typed.SubSegToInt | parth_func_test.go:589-610 | a key that matches no segment but the last fails with `KeyNotFound`; otherwise the result is the coercion of the segment after the first match, and a value returned always fits the kind |
| Typed.SubSegToBool | parth_func_test.go:707-725 | a key that matches no segment but the last fails with `KeyNotFound`; otherwise the result is the boolean coercion of the segment after the first match |
| Tables.Row22 | parth_func_test.go:22 | `SegmentToString("/test1", 0)` is `Ok("test1")` |
| Tables.Row23 | parth_func_test.go:23 | `SegmentToString("/test1/test-2", 1)` is `Ok("test-2")` |
| Tables.Row24 | parth_func_test.go:24 | `SegmentToString("/test1/test-2/test_3/", 2)` is `Ok("test_3")` |
| Tables.Row25 | parth_func_test.go:25 | `SegmentToString("test4/t4", 0)` is `Ok("test4")` |
| Tables.Row26 | parth_func_test.go:26 | `SegmentToString("//test5", 1)` is `Ok("test5")` |
| Tables.Row27 | parth_func_test.go:27 | `SegmentToString("/test6//", 1)` is `Ok("")` |
| Tables.Row28 | parth_func_test.go:28 | `SegmentToString("/test7", 3)` is `Err(OutOfBounds)` |
| Tables.Row29 | parth_func_test.go:29 | `SegmentToString("//test8", 0)` is `Ok("")` |
| Tables.Row30 | parth_func_test.go:30 | `SegmentToString("/", 0)` is `Ok("")` |
| Tables.Row31 | parth_func_test.go:31 | `SegmentToString("/test1", -1)` is `Ok("test1")` |
| Tables.Row32 | parth_func_test.go:32 | `SegmentToString("/test1/test-2", -1)` is `Ok("test-2")` |
| Tables.Row33 | parth_func_test.go:33 | `SegmentToString("/test1/test-2", -2)` is `Ok("test1")` |
| Tables.Row34 | parth_func_test.go:34 | `SegmentToString("/test1/test-2/test_3", -3)` is `Ok("test1")` |
| Tables.Row35 | parth_func_test.go:35 | `SegmentToString("test4/t4/", -1)` is `Ok("")` |
| Tables.Row36 | parth_func_test.go:36 | `SegmentToString("//test5", -1)` is `Ok("test5")` |
| Tables.Row37 | parth_func_test.go:37 | `SegmentToString("/test6//", -1)` is `Ok("")` |
| Tables.Row38 | parth_func_test.go:38 | `SegmentToString("/test7", -3)` is `Err(OutOfBounds)` |
| Tables.Row39 | parth_func_test.go:39 | `SegmentToString("//test8", -2)` is `Ok("")` |
| Tables.Row40 | parth_func_test.go:40 | `SegmentToString("/", -1)` is `Ok("")` |
| Tables.Row69 | parth_func_test.go:69 | for every unsigned kind, `SegmentToInt("/0.1", 0, kind)` is `Ok(0)` |
| Tables.Row70 | parth_func_test.go:70 | for every unsigned kind, `SegmentToInt("/0.2a", 0, kind)` is `Ok(0)` |
| Tables.Row71 | parth_func_test.go:71 | for every unsigned kind, `SegmentToInt("/aaaa1.3", 0, kind)` is `Ok(1)` |
| Tables.Row72 | parth_func_test.go:72 | for every unsigned kind, `SegmentToInt("/4", 0, kind)` is `Ok(4)` |
| Tables.Row73 | parth_func_test.go:73 | for every unsigned kind, `SegmentToInt("/5aaaa", 0, kind)` is `Ok(5)` |
| Tables.Row74 | parth_func_test.go:74 | for every unsigned kind, `SegmentToInt("/aaa6aa", 0, kind)` is `Ok(6)` |
| Tables.Row75 | parth_func_test.go:75 | for every unsigned kind, `SegmentToInt("/.7.aaaa", 0, kind)` is `Ok(0)` |
| Tables.Row76 | parth_func_test.go:76 | for every unsigned kind, `SegmentToInt("/.8aa", 0, kind)` is `Ok(0)` |
| Tables.Row77 | parth_func_test.go:77 | for every unsigned kind, `SegmentToInt("/-9", 0, kind)` is `Ok(9)` |
| Tables.Row78 | parth_func_test.go:78 | for every unsigned kind, `SegmentToInt("/-9", -1, kind)` is `Ok(9)` |
| Tables.Row79 | parth_func_test.go:79 | for every unsigned kind, `SegmentToInt("/10-", 0, kind)` is `Ok(10)` |
| Tables.Row80 | parth_func_test.go:80 | for every unsigned kind, `SegmentToInt("/3.14e+11", 0, kind)` is `Ok(3)` |
| Tables.Row81 | parth_func_test.go:81 | for every unsigned kind, `SegmentToInt("/3.14e.+12", 0, kind)` is `Ok(3)` |
| Tables.Row82 | parth_func_test.go:82 | for every unsigned kind, `SegmentToInt("/3.14e+.13", 0, kind)` is `Ok(3)` |
| Tables.Row83 | parth_func_test.go:83 | for every unsigned kind, `SegmentToInt("/3.14e+.13", -1, kind)` is `Ok(3)` |
| Tables.Row84 | parth_func_test.go:84 | for every unsigned kind, `SegmentToInt("/8", 1, kind)` is `Err(OutOfBounds)` |
| Tables.Row85 | parth_func_test.go:85 | for every unsigned kind, `SegmentToInt("/.", 0, kind)` is `Err(ConversionFailed)` |
| Tables.Row86 | parth_func_test.go:86 | for every unsigned kind, `SegmentToInt("/error", 0, kind)` is `Err(ConversionFailed)` |
| Tables.Row179 | parth_func_test.go:179 | `SegmentToInt` of the path `/` followed by the decimal text of 2^64-1, 0, Uint64 is `Ok(2^64-1)` |
| Tables.Row198 | parth_func_test.go:198 | for every signed kind, `SegmentToInt("/0.1", 0, kind)` is `Ok(0)` |
| Tables.Row199 | parth_func_test.go:199 | for every signed kind, `SegmentToInt("/0.2a", 0, kind)` is `Ok(0)` |
| Tables.Row200 | parth_func_test.go:200 | for every signed kind, `SegmentToInt("/aaaa1.3", 0, kind)` is `Ok(1)` |
| Tables.Row201 | parth_func_test.go:201 | for every signed kind, `SegmentToInt("/4", 0, kind)` is `Ok(4)` |
| Tables.Row202 | parth_func_test.go:202 | for every signed kind, `SegmentToInt("/5aaaa", 0, kind)` is `Ok(5)` |
| Tables.Row203 | parth_func_test.go:203 | for every signed kind, `SegmentToInt("/aaa6aa", 0, kind)` is `Ok(6)` |
| Tables.Row204 | parth_func_test.go:204 | for every signed kind, `SegmentToInt("/.7.aaaa", 0, kind)` is `Ok(0)` |
| Tables.Row205 | parth_func_test.go:205 | for every signed kind, `SegmentToInt("/.8aa", 0, kind)` is `Ok(0)` |
| Tables.Row206 | parth_func_test.go:206 | for every signed kind, `SegmentToInt("/-9", 0, kind)` is `Ok(-9)` |
| Tables.Row207 | parth_func_test.go:207 | for every signed kind, `SegmentToInt("/-9", -1, kind)` is `Ok(-9)` |
| Tables.Row208 | parth_func_test.go:208 | for every signed kind, `SegmentToInt("/10-", 0, kind)` is `Ok(10)` |
| Tables.Row209 | parth_func_test.go:209 | for every signed kind, `SegmentToInt("/3.14e+11", 0, kind)` is `Ok(3)` |
| Tables.Row210 | parth_func_test.go:210 | for every signed kind, `SegmentToInt("/3.14e.+12", 0, kind)` is `Ok(3)` |
| Tables.Row211 | parth_func_test.go:211 | for every signed kind, `SegmentToInt("/3.14e+.13", 0, kind)` is `Ok(3)` |
| Tables.Row212 | parth_func_test.go:212 | for every signed kind, `SegmentToInt("/3.14e+.13", -1, kind)` is `Ok(3)` |
| Tables.Row213 | parth_func_test.go:213 | for every signed kind, `SegmentToInt("/8", 1, kind)` is `Err(OutOfBounds)` |
| Tables.Row214 | parth_func_test.go:214 | for every signed kind, `SegmentToInt("/.", 0, kind)` is `Err(ConversionFailed)` |
| Tables.Row215 | parth_func_test.go:215 | for every signed kind, `SegmentToInt("/error", 0, kind)` is `Err(ConversionFailed)` |
| Tables.Row216 | parth_func_test.go:216 | for every signed kind, `SegmentToInt` of the path `/` followed by the decimal text of 2^64-1, 0, kind is `Err(ConversionFailed)` |
| Tables.Row317 | parth_func_test.go:317 | `SegmentToBool("/1", 0)` is `Ok(true)` |
| Tables.Row318 | parth_func_test.go:318 | `SegmentToBool("/t", 0)` is `Ok(true)` |
| Tables.Row319 | parth_func_test.go:319 | `SegmentToBool("/T", 0)` is `Ok(true)` |
| Tables.Row320 | parth_func_test.go:320 | `SegmentToBool("/true", 0)` is `Ok(true)` |
| Tables.Row321 | parth_func_test.go:321 | `SegmentToBool("/TRUE", 0)` is `Ok(true)` |
| Tables.Row322 | parth_func_test.go:322 | `SegmentToBool("/True", 0)` is `Ok(true)` |
| Tables.Row323 | parth_func_test.go:323 | `SegmentToBool("/0", 0)` is `Ok(false)` |
| Tables.Row324 | parth_func_test.go:324 | `SegmentToBool("/f", 0)` is `Ok(false)` |
| Tables.Row325 | parth_func_test.go:325 | `SegmentToBool("/F", 0)` is `Ok(false)` |
| Tables.Row326 | parth_func_test.go:326 | `SegmentToBool("/F", -1)` is `Ok(false)` |
| Tables.Row327 | parth_func_test.go:327 | `SegmentToBool("/false", 0)` is `Ok(false)` |
| Tables.Row328 | parth_func_test.go:328 | `SegmentToBool("/FALSE", 0)` is `Ok(false)` |
| Tables.Row329 | parth_func_test.go:329 | `SegmentToBool("/False", 0)` is `Ok(false)` |
| Tables.Row330 | parth_func_test.go:330 | `SegmentToBool("/True", 1)` is `Err(OutOfBounds)` |
| Tables.Row331 | parth_func_test.go:331 | `SegmentToBool("/error", 0)` is `Err(ConversionFailed)` |
| Tables.Row425 | parth_func_test.go:425 | `SubSegToString("/test1/res1/non1", "test1")` is `Ok("res1")` |
| Tables.Row426 | parth_func_test.go:426 | `SubSegToString("test2/res2/non2", "test2")` is `Ok("res2")` |
| Tables.Row427 | parth_func_test.go:427 | `SubSegToString("/3/33/333", "3")` is `Ok("33")` |
| Tables.Row428 | parth_func_test.go:428 | `SubSegToString("4/44/444", "4")` is `Ok("44")` |
| Tables.Row429 | parth_func_test.go:429 | `SubSegToString("/5/55/555", "55")` is `Ok("555")` |
| Tables.Row430 | parth_func_test.go:430 | `SubSegToString("6/66/666", "66")` is `Ok("666")` |
| Tables.Row431 | parth_func_test.go:431 | `SubSegToString("/77", "77")` is `Err(KeyNotFound)` |
| Tables.Row432 | parth_func_test.go:432 | `SubSegToString("/", "88")` is `Err(KeyNotFound)` |
| Tables.Row461 | parth_func_test.go:461 | for every unsigned kind, `SubSegToInt("/t/0.1", "t", kind)` is `Ok(0)` |
| Tables.Row462 | parth_func_test.go:462 | for every unsigned kind, `SubSegToInt("/2/0.2a", "2", kind)` is `Ok(0)` |
| Tables.Row463 | parth_func_test.go:463 | for every unsigned kind, `SubSegToInt("/xx/aaaa1.3", "xx", kind)` is `Ok(1)` |
| Tables.Row464 | parth_func_test.go:464 | for every unsigned kind, `SubSegToInt("id/4", "id", kind)` is `Ok(4)` |
| Tables.Row465 | parth_func_test.go:465 | for every unsigned kind, `SubSegToInt("/d/5aaaa", "d", kind)` is `Ok(5)` |
| Tables.Row466 | parth_func_test.go:466 | for every unsigned kind, `SubSegToInt("/d/e/aaa6aa", "e", kind)` is `Ok(6)` |
| Tables.Row467 | parth_func_test.go:467 | for every unsigned kind, `SubSegToInt("/a/g/r/.7.aaaa", "r", kind)` is `Ok(0)` |
| Tables.Row468 | parth_func_test.go:468 | for every unsigned kind, `SubSegToInt("/g/.8aa/gf/4", "g", kind)` is `Ok(0)` |
| Tables.Row469 | parth_func_test.go:469 | for every unsigned kind, `SubSegToInt("/x/-9", "x", kind)` is `Ok(9)` |
| Tables.Row470 | parth_func_test.go:470 | for every unsigned kind, `SubSegToInt("/w/rr/10-", "rr", kind)` is `Ok(10)` |
| Tables.Row471 | parth_func_test.go:471 | for every unsigned kind, `SubSegToInt("/h/3.14e+11", "h", kind)` is `Ok(3)` |
| Tables.Row472 | parth_func_test.go:472 | for every unsigned kind, `SubSegToInt("/y/3.14e.+12", "y", kind)` is `Ok(3)` |
| Tables.Row473 | parth_func_test.go:473 | for every unsigned kind, `SubSegToInt("/yy/3.14e+.13", "yy", kind)` is `Ok(3)` |
| Tables.Row474 | parth_func_test.go:474 | for every unsigned kind, `SubSegToInt("/hh/s/3.14e+.13", "s", kind)` is `Ok(3)` |
| Tables.Row475 | parth_func_test.go:475 | for every unsigned kind, `SubSegToInt("/g/.", "g", kind)` is `Err(ConversionFailed)` |
| Tables.Row476 | parth_func_test.go:476 | for every unsigned kind, `SubSegToInt("/j/error", "j", kind)` is `Err(ConversionFailed)` |
| Tables.Row477 | parth_func_test.go:477 | for every unsigned kind, `SubSegToInt("/jj", "j", kind)` is `Err(KeyNotFound)` |
| Tables.Row570 | parth_func_test.go:570 | `SubSegToInt` of the path `/k/` followed by the decimal text of 2^64-1, "k", Uint64 is `Ok(2^64-1)` |
| Tables.Row589 | parth_func_test.go:589 | for every signed kind, `SubSegToInt("/t/0.1", "t", kind)` is `Ok(0)` |
| Tables.Row590 | parth_func_test.go:590 | for every signed kind, `SubSegToInt("/2/0.2a", "2", kind)` is `Ok(0)` |
| Tables.Row591 | parth_func_test.go:591 | for every signed kind, `SubSegToInt("/xx/aaaa1.3", "xx", kind)` is `Ok(1)` |
| Tables.Row592 | parth_func_test.go:592 | for every signed kind, `SubSegToInt("id/4", "id", kind)` is `Ok(4)` |
| Tables.Row593 | parth_func_test.go:593 | for every signed kind, `SubSegToInt("/d/5aaaa", "d", kind)` is `Ok(5)` |
| Tables.Row594 | parth_func_test.go:594 | for every signed kind, `SubSegToInt("/d/e/aaa6aa", "e", kind)` is `Ok(6)` |
| Tables.Row595 | parth_func_test.go:595 | for every signed kind, `SubSegToInt("/a/g/r/.7.aaaa", "r", kind)` is `Ok(0)` |
| Tables.Row596 | parth_func_test.go:596 | for every signed kind, `SubSegToInt("/g/.8aa/gf/4", "g", kind)` is `Ok(0)` |
| Tables.Row597 | parth_func_test.go:597 | for every signed kind, `SubSegToInt("/x/-9", "x", kind)` is `Ok(-9)` |
| Tables.Row598 | parth_func_test.go:598 | for every signed kind, `SubSegToInt("/w/rr/10-", "rr", kind)` is `Ok(10)` |
| Tables.Row599 | parth_func_test.go:599 | for every signed kind, `SubSegToInt("/h/3.14e+11", "h", kind)` is `Ok(3)` |
| Tables.Row600 | parth_func_test.go:600 | for every signed kind, `SubSegToInt("/y/3.14e.+12", "y", kind)` is `Ok(3)` |
| Tables.Row601 | parth_func_test.go:601 | for every signed kind, `SubSegToInt("/yy/3.14e+.13", "yy", kind)` is `Ok(3)` |
| Tables.Row602 | parth_func_test.go:602 | for every signed kind, `SubSegToInt("/hh/s/3.14e+.13", "s", kind)` is `Ok(3)` |
| Tables.Row603 | parth_func_test.go:603 | for every signed kind, `SubSegToInt("/g/.", "g", kind)` is `Err(ConversionFailed)` |
| Tables.Row604 | parth_func_test.go:604 | for every signed kind, `SubSegToInt("/j/error", "j", kind)` is `Err(ConversionFailed)` |
| Tables.Row605 | parth_func_test.go:605 | for every signed kind, `SubSegToInt("/jj", "j", kind)` is `Err(KeyNotFound)` |
| Tables.Row606 | parth_func_test.go:606 | for every signed kind, `SubSegToInt` of the path `/k/` followed by the decimal text of a 53-digit number, "k", kind is `Err(ConversionFailed)` |
| Tables.Row707 | parth_func_test.go:707 | `SubSegToBool("/a/1", "a")` is `Ok(true)` |
| Tables.Row708 | parth_func_test.go:708 | `SubSegToBool("/a/b/t", "b")` is `Ok(true)` |
| Tables.Row709 | parth_func_test.go:709 | `SubSegToBool("/c/T", "c")` is `Ok(true)` |
| Tables.Row710 | parth_func_test.go:710 | `SubSegToBool("/3/true", "3")` is `Ok(true)` |
| Tables.Row711 | parth_func_test.go:711 | `SubSegToBool("/4/44/TRUE", "44")` is `Ok(true)` |
| Tables.Row712 | parth_func_test.go:712 | `SubSegToBool("/h/5/True/5", "5")` is `Ok(true)` |
| Tables.Row713 | parth_func_test.go:713 | `SubSegToBool("/0/0", "0")` is `Ok(false)` |
| Tables.Row714 | parth_func_test.go:714 | `SubSegToBool("/h/f", "h")` is `Ok(false)` |
| Tables.Row715 | parth_func_test.go:715 | `SubSegToBool("/F/F", "F")` is `Ok(false)` |
| Tables.Row716 | parth_func_test.go:716 | `SubSegToBool("/g/F", "g")` is `Ok(false)` |
| Tables.Row717 | parth_func_test.go:717 | `SubSegToBool("/j/false", "j")` is `Ok(false)` |
| Tables.Row718 | parth_func_test.go:718 | `SubSegToBool("/k/FALSE", "k")` is `Ok(false)` |
| Tables.Row719 | parth_func_test.go:719 | `SubSegToBool("/l/False", "l")` is `Ok(false)` |
| Tables.Row720 | parth_func_test.go:720 | `SubSegToBool("/True", "nx")` is `Err(KeyNotFound)` |
| Tables.Row721 | parth_func_test.go:721 | `SubSegToBool("/gg/error", "gg")` is `Err(ConversionFailed)` |
| Tables.Row813 | parth_func_test.go:813 | `SpanToString("/test1", 0, 0)` is `Ok("/test1")` |
| Tables.Row814 | parth_func_test.go:814 | `SpanToString("/test1", 0, 1)` is `Ok("/test1")` |
| Tables.Row815 | parth_func_test.go:815 | `SpanToString("/test1/test-2", 0, 1)` is `Ok("/test1")` |
| Tables.Row816 | parth_func_test.go:816 | `SpanToString("/test1/test-2/test_3/", 1, 2)` is `Ok("/test-2")` |
| Tables.Row817 | parth_func_test.go:817 | `SpanToString("test4/t4", 0, 0)` is `Ok("test4/t4")` |
| Tables.Row818 | parth_func_test.go:818 | `SpanToString("t444/t4", 0, 1)` is `Ok("t444")` |
| Tables.Row819 | parth_func_test.go:819 | `SpanToString("//test5", 0, 1)` is `Ok("/")` |
| Tables.Row820 | parth_func_test.go:820 | `SpanToString("/test6//", 0, 1)` is `Ok("/test6")` |
| Tables.Row821 | parth_func_test.go:821 | `SpanToString("/t6//", 0, 2)` is `Ok("/t6/")` |
| Tables.Row822 | parth_func_test.go:822 | `SpanToString("/66//", 0, 3)` is `Ok("/66//")` |
| Tables.Row823 | parth_func_test.go:823 | `SpanToString("/test7", 1, 2)` is `Err(OutOfBounds)` |
| Tables.Row824 | parth_func_test.go:824 | `SpanToString("/test8", 0, -1)` is `Ok("")` |
| Tables.Row825 | parth_func_test.go:825 | `SpanToString("/t/9", 1, 1)` is `Ok("")` |
| Tables.Row826 | parth_func_test.go:826 | `SpanToString("/", 0, 0)` is `Ok("/")` |
| Tables.Row827 | parth_func_test.go:827 | `SpanToString("/", 1, 1)` is `Err(OutOfBounds)` |
| Tables.Row828 | parth_func_test.go:828 | `SpanToString("/", -1, -1)` is `Ok("")` |
| Tables.Row829 | parth_func_test.go:829 | `SpanToString("/", 0, -1)` is `Ok("")` |
| Tables.Row830 | parth_func_test.go:830 | `SpanToString("/", -1, 0)` is `Ok("/")` |
| Tables.Row831 | parth_func_test.go:831 | `SpanToString("/test1", -1, 0)` is `Ok("/test1")` |
| Tables.Row832 | parth_func_test.go:832 | `SpanToString("/test1/test-2", 0, -1)` is `Ok("/test1")` |
| Tables.Row833 | parth_func_test.go:833 | `SpanToString("/test1/test-2/test_3", -3, -1)` is `Ok("/test1/test-2")` |
| Tables.Row834 | parth_func_test.go:834 | `SpanToString("/test11/test-12", -1, -1)` is `Ok("")` |
| Tables.Row835 | parth_func_test.go:835 | `SpanToString("/test11/test-12", -1, -3)` is `Err(OutOfBounds)` |
| Tables.Row836 | parth_func_test.go:836 | `SpanToString("test4/t4/", -2, -1)` is `Ok("/t4")` |
| Tables.Row837 | parth_func_test.go:837 | `SpanToString("/test5/test-6/test_7", -1, -3)` is `Err(OutOfBounds)` |
| Tables.Row838 | parth_func_test.go:838 | `SpanToString("/test7", -3, 0)` is `Err(OutOfBounds)` |
| Tables.Row868 | parth_func_test.go:868 | `SubSpanToString("/test1/res1/non1", "test1", 1)` is `Ok("/res1")` |
| Tables.Row869 | parth_func_test.go:869 | `SubSpanToString("test2/res2/non2", "test2", 2)` is `Ok("/res2/non2")` |
| Tables.Row870 | parth_func_test.go:870 | `SubSpanToString("/3/33/333", "3", 1)` is `Ok("/33")` |
| Tables.Row871 | parth_func_test.go:871 | `SubSpanToString("4/44/444", "4", 2)` is `Ok("/44/444")` |
| Tables.Row872 | parth_func_test.go:872 | `SubSpanToString("/5/55/555", "55", 1)` is `Ok("/555")` |
| Tables.Row873 | parth_func_test.go:873 | `SubSpanToString("6/66/666", "66", 2)` is `Err(OutOfBounds)` |
| Tables.Row874 | parth_func_test.go:874 | `SubSpanToString("/77", "77", 1)` is `Err(KeyNotFound)` |
| Tables.Row875 | parth_func_test.go:875 | `SubSpanToString("/", "88", 1)` is `Err(KeyNotFound)` |
| Tables.Row876 | parth_func_test.go:876 | `SubSpanToString("/t1/res1/non1/xtra", "t1", -2)` is `Ok("/res1")` |
| Tables.Row877 | parth_func_test.go:877 | `SubSpanToString("t2/res2/non2/xtra", "t2", 0)` is `Ok("/res2/non2/xtra")` |
| Tables.Row878 | parth_func_test.go:878 | `SubSpanToString("/3/33/333/303", "3", -1)` is `Ok("/33/333")` |
| Tables.Row879 | parth_func_test.go:879 | `SubSpanToString("/77", "77", -1)` is `Err(KeyNotFound)` |
| Tables.Row880 | parth_func_test.go:880 | `SubSpanToString("/", "88", 0)` is `Err(KeyNotFound)` |
| Tables.SegmentToStringTable | parth_func_test.go:22-40 | all 19 rows of the table hold of the model |
| Tables.SegmentToUintTable | parth_func_test.go:69-86 | for every unsigned kind, all 18 rows of the table hold of the model |
| Tables.SegmentToIntTable | parth_func_test.go:198-216 | for every signed kind, all 19 rows of the table hold of the model |
| Tables.SegmentToBoolTable | parth_func_test.go:317-331 | all 15 rows of the table hold of the model |
| Tables.SubSegToStringTable | parth_func_test.go:425-432 | all 8 rows of the table hold of the model |
| Tables.SubSegToUintTable | parth_func_test.go:461-477 | for every unsigned kind, all 17 rows of the table hold of the model |
| Tables.SubSegToIntTable | parth_func_test.go:589-606 | for every signed kind, all 18 rows of the table hold of the model |
| Tables.SubSegToBoolTable | parth_func_test.go:707-721 | all 15 rows of the table hold of the model |
| Tables.SpanToStringTable | parth_func_test.go:813-838 | all 26 rows of the table hold of the model |
| Tables.SubSpanToStringTable | parth_func_test.go:868-880 | all 13 rows of the table hold of the model |
| Tables.Uint64MaxRows | parth_func_test.go:179 | the 2^64-1 rows of the unsigned tables (lines 179 and 570) both hold of the model |

Every `Tables.Row<line>` lemma is proved from `TableFacts` (the segments of
the row's path, the reading of its literal, the literal list facts) and one
general lemma of `Rows`; every `Tables.<name>Table` lemma collects the rows
of one table.

## Rules the tables decide

The tables are the only basis of these rules; where a looser reading of the
operation names would suggest otherwise, the model follows the rows:

- Spans: the last index is exclusive (`("/test1/test-2", 0, 1)` gives
  `/test1`, line 815) and `0` means the end of the path (line 813).
- Negative indexes: `i = -n` is accepted (`("/test1/test-2", -2)` gives
  `test1`, line 33).
- Integers: text before the first digit is skipped (`aaaa1.3` reads as 1,
  line 71; `aaa6aa` as 6, line 74).
- Booleans: only the twelve spellings above are used (lines 317-331), which
  is also exactly the set Go's `strconv.ParseBool` accepts; the model
  accepts those and nothing else, so matching is not case-insensitive.

## Left out

- Float coercion (`SegmentToFloat32/64`, `SubSegToFloat32/64`, lines 353-416
  and 741-803): floating-point parsing and rounding are outside this model.
- The per-width wrappers (lines 90-177, 218-306, 481-568, 610-698) are one
  coercer over an `IntKind` (signedness and width); each integer table
  lemma holds for every kind of the signedness its table covers. Go's `int` and
  `uint` are taken as 64 bits wide.
- The test harness (the loops, `t.Errorf`, the message formats at lines
  10-12) is not modelled.
- Go's `strconv` digit parsing is replaced by `Coerce.DigitsValue` over
  unbounded integers followed by an explicit range check.
- Error kinds: the tables do not tell errors apart, only that one occurs;
  `OutOfBounds`, `KeyNotFound` and `ConversionFailed` are the model's own
  classification.
- Zero values on failure: each table loop compares the returned value even
  on a row that expects an error (lines 43-58 and the same in every other
  loop), so on failure the library also returns the zero value of the
  result type (`""`, `0` or `false`; rows 28, 84, 330, 823 and 873 among
  others). `Result.Err` carries no value, so the model does not state it.
- Behaviour no row pins down is given the simplest definition consistent
  with the tables and is not claimed to match the library: the empty path
  (one empty segment); a lone `.` before a later digit (`a.b5` reads as 5);
  mixed-case boolean spellings (rejected); overflow of a narrow width such
  as `/300` into 8 bits (rejected by the range check).
- Tables.Row179: the path is stated as `/` followed by `FormatDecimal(2^64-1)` rather than as the 20-digit literal; that the two texts are equal is not proved, because expanding a 20-digit literal character by character exceeds the verifier's resource limit.
- Tables.Row216: stated with `FormatDecimal(2^64-1)` in place of the 20-digit literal, for the same reason as Row179.
- Tables.Row570: stated with `FormatDecimal(2^64-1)` in place of the 20-digit literal, for the same reason as Row179.
- Tables.Row606: stated with `FormatDecimal` of the 53-digit number in place of its literal, for the same reason as Row179.
- Tables.Uint64MaxRows: collects Row179 and Row570 and inherits their restatement.
- Tables.SegmentToIntTable: includes Row216 and inherits its restatement.
- Tables.SubSegToIntTable: includes Row606 and inherits its restatement.
- Spans.SubSpanToString: its own contract states only the failure for a missing key; its value is stated by Spans.SubSpanIsSpan together with Spans.KeySpanIsSpan.
