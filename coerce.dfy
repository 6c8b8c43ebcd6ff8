/**
 * Coercion of an extracted segment to an integer or a boolean.
 *
 * Integers are read permissively: the segment is scanned for its first run
 * of decimal digits and whatever surrounds the run is ignored. A '.' that is
 * directly followed by a digit and comes before any digit makes the segment
 * read as a fraction, whose integer part is 0. A '-' right in front of the
 * run makes the value negative for signed kinds and is ignored for unsigned
 * ones. The value must then fit the target kind.
 */
module Coerce {
  import opened Outcomes

  predicate IsDigit(c: char)
  {
    '0' <= c <= '9'
  }

  function DigitValue(c: char): (d: nat)
    requires IsDigit(c)
    ensures d < 10
  {
    c as int - '0' as int
  }

  /** Value of the decimal digits s[a..b], most significant digit first. */
  function DigitsValue(s: string, a: nat, b: nat): nat
    requires a <= b <= |s|
    requires forall k :: a <= k < b ==> IsDigit(s[k])
    decreases b - a
  {
    if a == b then 0 else 10 * DigitsValue(s, a, b - 1) + DigitValue(s[b - 1])
  }

  /** Offset just past the run of digits that starts at `from`. */
  function RunEnd(s: string, from: nat): (e: nat)
    requires from <= |s|
    ensures from <= e <= |s|
    ensures forall k :: from <= k < e ==> IsDigit(s[k])
    ensures e == |s| || !IsDigit(s[e])
    decreases |s| - from
  {
    if from < |s| && IsDigit(s[from]) then RunEnd(s, from + 1) else from
  }

  /** A '.' at k directly followed by a digit. */
  predicate FractionAt(s: string, k: nat)
  {
    k + 1 < |s| && s[k] == '.' && IsDigit(s[k + 1])
  }

  /** What the scan for an integer literal finds. */
  datatype Literal =
    | NoDigits                  // there is no digit at all
    | Fraction(dot: nat)        // a '.' and a digit come before any other digit
    | Run(start: nat, end: nat) // the first run of digits

  /**
   * Scans s from `from` up to the first digit, stopping early at a '.' that
   * is followed by a digit; a run extends over all the digits that follow.
   */
  function FindLiteral(s: string, from: nat): (r: Literal)
    requires from <= |s|
    ensures r.NoDigits? <==> forall k :: from <= k < |s| ==> !IsDigit(s[k])
    ensures r.Fraction? ==> from <= r.dot && FractionAt(s, r.dot)
    ensures r.Fraction? ==> forall k :: from <= k < r.dot ==> !IsDigit(s[k])
    ensures r.Run? ==> from <= r.start < r.end <= |s|
    ensures r.Run? ==> forall k :: r.start <= k < r.end ==> IsDigit(s[k])
    ensures r.Run? ==> r.end == |s| || !IsDigit(s[r.end])
    ensures r.Run? ==> forall k :: from <= k < r.start ==> !IsDigit(s[k])
    ensures r.Run? ==> forall k :: from <= k < r.start ==> !FractionAt(s, k)
    decreases |s| - from
  {
    if from == |s| then NoDigits
    else if IsDigit(s[from]) then Run(from, RunEnd(s, from))
    else if FractionAt(s, from) then Fraction(from)
    else FindLiteral(s, from + 1)
  }

  /** The integer a segment reads as, before any range check; None when it has no digit. */
  function LeadingInt(s: string, signed: bool): (r: Option<int>)
    ensures r.None? <==> forall k :: 0 <= k < |s| ==> !IsDigit(s[k])
    ensures !signed && r.Some? ==> r.value >= 0
  {
    match FindLiteral(s, 0)
    case NoDigits => None
    case Fraction(_) => Some(0)
    case Run(a, b) =>
      var v: int := DigitsValue(s, a, b);
      if signed && a > 0 && s[a - 1] == '-' then Some(-v) else Some(v)
  }

  /** Characters that are neither a digit nor the start of a fraction are skipped over. */
  lemma {:induction false} FindLiteralSkips(s: string, lo: nat, hi: nat)
    requires lo <= hi <= |s|
    requires forall k :: lo <= k < hi ==> !IsDigit(s[k])
    requires forall k :: lo <= k < hi ==> !FractionAt(s, k)
    ensures FindLiteral(s, lo) == FindLiteral(s, hi)
    decreases hi - lo
  {
    if lo < hi {
      FindLiteralSkips(s, lo + 1, hi);
    }
  }

  /** The value of a digit string does not depend on the text around it. */
  lemma {:induction false} DigitsValueShift(x: string, ds: string, y: string, n: nat)
    requires n <= |ds|
    requires forall k :: 0 <= k < |ds| ==> IsDigit(ds[k])
    ensures forall k :: |x| <= k < |x| + n ==> IsDigit((x + ds + y)[k])
    ensures DigitsValue(x + ds + y, |x|, |x| + n) == DigitsValue(ds, 0, n)
    decreases n
  {
    if n > 0 {
      DigitsValueShift(x, ds, y, n - 1);
      assert (x + ds + y)[|x| + n - 1] == ds[n - 1];
    }
  }

  /** A run at the end of the run scan covers every digit up to the first non-digit. */
  lemma {:induction false} RunEndAt(s: string, from: nat, e: nat)
    requires from <= e <= |s|
    requires forall k :: from <= k < e ==> IsDigit(s[k])
    requires e == |s| || !IsDigit(s[e])
    ensures RunEnd(s, from) == e
    decreases e - from
  {
    if from < e {
      RunEndAt(s, from + 1, e);
    }
  }

  /**
   * The first run of digits is read, whatever text without digits or '.'
   * comes before it and whatever comes after it, as long as the run is not
   * continued by another digit; a '-' right before the run negates it for
   * signed kinds only.
   */
  lemma ReadsDigitRun(pre: string, ds: string, tail: string, signed: bool)
    requires forall k :: 0 <= k < |pre| ==> !IsDigit(pre[k]) && pre[k] != '.'
    requires |ds| > 0 && forall k :: 0 <= k < |ds| ==> IsDigit(ds[k])
    requires tail == [] || !IsDigit(tail[0])
    ensures var v: int := DigitsValue(ds, 0, |ds|);
            LeadingInt(pre + ds + tail, signed) ==
              Some(if signed && |pre| > 0 && pre[|pre| - 1] == '-' then -v else v)
  {
    RunLayout(pre, ds, tail);
    ReadsRunAt(pre + ds + tail, |pre|, |pre| + |ds|, signed, DigitsValue(ds, 0, |ds|),
               |pre| > 0 && pre[|pre| - 1] == '-');
  }

  /**
   * s holds the digit run [a, b) that the scan stops at, worth v, and
   * preceded by a '-' exactly when `negative` holds: nothing before the run
   * is a digit or the start of a fraction, and no digit continues it.
   */
  predicate RunAt(s: string, a: nat, b: nat, v: int, negative: bool)
  {
    && a < b <= |s|
    && (forall k :: 0 <= k < a ==> !IsDigit(s[k]))
    && (forall k :: 0 <= k < a ==> !FractionAt(s, k))
    && (forall k :: a <= k < b ==> IsDigit(s[k]))
    && (b == |s| || !IsDigit(s[b]))
    && v == DigitsValue(s, a, b)
    && (negative <==> a > 0 && s[a - 1] == '-')
  }

  /** The digits ds, between text without digits or '.' and text not starting with a digit, are the run the scan stops at. */
  lemma RunLayout(pre: string, ds: string, tail: string)
    requires forall k :: 0 <= k < |pre| ==> !IsDigit(pre[k]) && pre[k] != '.'
    requires |ds| > 0 && forall k :: 0 <= k < |ds| ==> IsDigit(ds[k])
    requires tail == [] || !IsDigit(tail[0])
    ensures RunAt(pre + ds + tail, |pre|, |pre| + |ds|, DigitsValue(ds, 0, |ds|), |pre| > 0 && pre[|pre| - 1] == '-')
  {
    PrefixSkipped(pre, ds, tail);
    DigitsValueShift(pre, ds, tail, |ds|);
    RunEdges(pre, ds, tail);
  }

  /** What lies right before and right after ds once it is placed between pre and tail. */
  lemma RunEdges(pre: string, ds: string, tail: string)
    requires tail == [] || !IsDigit(tail[0])
    ensures |pre| + |ds| == |pre + ds + tail| || !IsDigit((pre + ds + tail)[|pre| + |ds|])
    ensures (|pre| > 0 && pre[|pre| - 1] == '-') <==> (|pre| > 0 && (pre + ds + tail)[|pre| - 1] == '-')
  {
    assert |pre| + |ds| < |pre + ds + tail| ==> (pre + ds + tail)[|pre| + |ds|] == tail[0];
    assert |pre| > 0 ==> (pre + ds + tail)[|pre| - 1] == pre[|pre| - 1];
  }

  /** Text without digits and '.' is skipped by the scan, whatever follows it. */
  lemma PrefixSkipped(pre: string, ds: string, tail: string)
    requires forall k :: 0 <= k < |pre| ==> !IsDigit(pre[k]) && pre[k] != '.'
    ensures forall k :: 0 <= k < |pre| ==> !IsDigit((pre + ds + tail)[k])
    ensures forall k :: 0 <= k < |pre| ==> !FractionAt(pre + ds + tail, k)
  {
    forall k | 0 <= k < |pre| ensures !IsDigit((pre + ds + tail)[k]) && !FractionAt(pre + ds + tail, k) {
      assert (pre + ds + tail)[k] == pre[k];
    }
  }

  /** The scan of s reads the run [a, b), negated when a '-' precedes it and the kind is signed. */
  lemma ReadsRunAt(s: string, a: nat, b: nat, signed: bool, v: int, negative: bool)
    requires RunAt(s, a, b, v, negative)
    ensures LeadingInt(s, signed) == Some(if signed && negative then -v else v)
  {
    FindLiteralSkips(s, 0, a);
    RunEndAt(s, a, b);
    assert FindLiteral(s, 0) == Run(a, b);
  }

  /** A '.' and a digit before any other digit read as 0, whatever follows. */
  lemma ReadsFraction(pre: string, d: char, tail: string, signed: bool)
    requires forall k :: 0 <= k < |pre| ==> !IsDigit(pre[k]) && pre[k] != '.'
    requires IsDigit(d)
    ensures LeadingInt(pre + ['.', d] + tail, signed) == Some(0)
  {
    var s := pre + ['.', d] + tail;
    forall k | 0 <= k < |pre| ensures !IsDigit(s[k]) && !FractionAt(s, k) {
      assert s[k] == pre[k];
    }
    FindLiteralSkips(s, 0, |pre|);
    assert s[|pre|] == '.' && s[|pre| + 1] == d;
  }

  /** A signed reading and an unsigned reading differ only in the sign. */
  lemma UnsignedIsMagnitude(s: string)
    ensures LeadingInt(s, true).None? <==> LeadingInt(s, false).None?
    ensures LeadingInt(s, true).Some? ==>
              LeadingInt(s, false).value == if LeadingInt(s, true).value < 0 then -LeadingInt(s, true).value else LeadingInt(s, true).value
  {
  }

  /** 10 to the power n. */
  function Pow10(n: nat): nat
  {
    if n == 0 then 1 else 10 * Pow10(n - 1)
  }

  lemma {:induction false} Pow10Add(a: nat, b: nat)
    ensures Pow10(a + b) == Pow10(a) * Pow10(b)
    decreases a
  {
    if a > 0 {
      Pow10Add(a - 1, b);
      assert Pow10(a + b) == 10 * (Pow10(a - 1) * Pow10(b));
    }
  }

  /** A digit string without a leading zero is at least 10 to the power of its length less one. */
  lemma {:induction false} DigitsValueLowerBound(s: string, a: nat, b: nat)
    requires a < b <= |s|
    requires forall k :: a <= k < b ==> IsDigit(s[k])
    requires s[a] != '0'
    ensures DigitsValue(s, a, b) >= Pow10(b - a - 1)
    decreases b - a
  {
    if b - a > 1 {
      DigitsValueLowerBound(s, a, b - 1);
    }
  }

  /** A run of digits without a leading zero, alone in its segment, reads as at least 10^(length-1). */
  lemma ReadsLongRun(s: string, signed: bool)
    requires |s| >= 1 && s[0] != '0'
    requires forall k :: 0 <= k < |s| ==> IsDigit(s[k])
    ensures LeadingInt(s, signed).Some? && LeadingInt(s, signed).value >= Pow10(|s| - 1)
  {
    ReadsDigitRun("", s, "", signed);
    assert "" + s + "" == s;
    DigitsValueLowerBound(s, 0, |s|);
  }

  /** Decimal digits of n, most significant first, without leading zeros. */
  function FormatDecimal(n: nat): (r: string)
    ensures |r| >= 1
    ensures forall k :: 0 <= k < |r| ==> IsDigit(r[k])
    ensures DigitsValue(r, 0, |r|) == n
    decreases n
  {
    var d := ['0' + (n % 10) as char];
    if n < 10 then d
    else
      var hi := FormatDecimal(n / 10);
      DigitsValueShift([], hi, d, |hi|);
      assert [] + hi + d == hi + d;
      hi + d
  }

  /** An integer written in decimal, with a '-' in front when it is negative. */
  function FormatInt(v: int): string
  {
    if v < 0 then "-" + FormatDecimal(-v) else FormatDecimal(v)
  }

  /** Bit widths of the integer kinds. */
  datatype Width = W8 | W16 | W32 | W64
  {
    function Bits(): nat
    {
      match this
      case W8 => 8
      case W16 => 16
      case W32 => 32
      case W64 => 64
    }
  }

  /** An integer kind: signed or unsigned, of a bit width. */
  datatype IntKind = IntKind(signed: bool, width: Width)

  /** The kinds of the per-width entry points; Go's int and uint are taken as 64 bits wide. */
  const Int: IntKind := IntKind(true, W64)
  const Int8: IntKind := IntKind(true, W8)
  const Int16: IntKind := IntKind(true, W16)
  const Int32: IntKind := IntKind(true, W32)
  const Int64: IntKind := IntKind(true, W64)
  const Uint: IntKind := IntKind(false, W64)
  const Uint8: IntKind := IntKind(false, W8)
  const Uint16: IntKind := IntKind(false, W16)
  const Uint32: IntKind := IntKind(false, W32)
  const Uint64: IntKind := IntKind(false, W64)

  /** 2 to the power n. */
  function Pow2(n: nat): nat
  {
    if n == 0 then 1 else 2 * Pow2(n - 1)
  }

  lemma {:induction false} Pow2Add(a: nat, b: nat)
    ensures Pow2(a + b) == Pow2(a) * Pow2(b)
    decreases a
  {
    if a > 0 {
      Pow2Add(a - 1, b);
      assert Pow2(a + b) == 2 * (Pow2(a - 1) * Pow2(b));
    }
  }

  lemma {:induction false} Pow2Monotone(a: nat, b: nat)
    requires a <= b
    ensures Pow2(a) <= Pow2(b)
    decreases b - a
  {
    if a < b {
      Pow2Monotone(a, b - 1);
    }
  }

  /** The bounds of the 64-bit kinds. */
  lemma Pow2Of64()
    ensures Pow2(63) == 0x8000_0000_0000_0000
    ensures Pow2(64) == 0x1_0000_0000_0000_0000
  {
    assert Pow2(8) == 0x100;
    Pow2Add(8, 8);
    assert Pow2(16) == 0x1_0000;
    Pow2Add(16, 16);
    assert Pow2(32) == 0x1_0000_0000;
    Pow2Add(32, 32);
    assert Pow2(64) == 2 * Pow2(63);
  }

  /** The values an integer kind can hold. */
  predicate InRange(v: int, kind: IntKind)
  {
    if kind.signed then -(Pow2(kind.width.Bits() - 1) as int) <= v < Pow2(kind.width.Bits() - 1)
    else 0 <= v < Pow2(kind.width.Bits())
  }

  /** A wider kind of the same signedness holds every value a narrower one holds. */
  lemma InRangeWidens(v: int, narrow: IntKind, wide: IntKind)
    requires narrow.signed == wide.signed && narrow.width.Bits() <= wide.width.Bits()
    requires InRange(v, narrow)
    ensures InRange(v, wide)
  {
    Pow2Monotone(narrow.width.Bits() - 1, wide.width.Bits() - 1);
    Pow2Monotone(narrow.width.Bits(), wide.width.Bits());
  }

  /**
   * A run of more than twenty digits without a leading zero fits no kind:
   * the largest value any kind holds, 2^64 - 1, has twenty digits.
   */
  lemma LongRunFails(s: string, kind: IntKind)
    requires |s| >= 21 && s[0] != '0'
    requires forall k :: 0 <= k < |s| ==> IsDigit(s[k])
    ensures CoerceInt(s, kind) == Err(ConversionFailed)
  {
    ReadsLongRun(s, kind.signed);
    Pow10Monotone(20, |s| - 1);
    Pow10Of20();
    Pow2Of64();
    Pow2Monotone(kind.width.Bits(), 64);
  }

  lemma {:induction false} Pow10Monotone(a: nat, b: nat)
    requires a <= b
    ensures Pow10(a) <= Pow10(b)
    decreases b - a
  {
    if a < b {
      Pow10Monotone(a, b - 1);
    }
  }

  lemma Pow10Of20()
    ensures Pow10(20) == 100_000_000_000_000_000_000
  {
    assert Pow10(5) == 100_000;
    Pow10Add(5, 5);
    Pow10Add(10, 10);
  }

  /**
   * The integer a segment reads as, when it has a digit and the value fits
   * the kind; ConversionFailed otherwise.
   */
  function CoerceInt(s: string, kind: IntKind): (r: Result<int>)
    ensures r.Ok? <==> LeadingInt(s, kind.signed).Some? && InRange(LeadingInt(s, kind.signed).value, kind)
    ensures r.Ok? ==> r.value == LeadingInt(s, kind.signed).value
    ensures r.Err? ==> r.error == ConversionFailed
  {
    match LeadingInt(s, kind.signed)
    case None => Err(ConversionFailed)
    case Some(v) => if InRange(v, kind) then Ok(v) else Err(ConversionFailed)
  }

  /** The spellings a boolean segment may take. */
  const TrueSpellings: set<string> := {"1", "t", "T", "true", "TRUE", "True"}
  const FalseSpellings: set<string> := {"0", "f", "F", "false", "FALSE", "False"}

  /** The boolean a segment spells, matched against the whole segment. */
  function CoerceBool(s: string): (r: Result<bool>)
    ensures r.Ok? <==> s in TrueSpellings || s in FalseSpellings
    ensures r.Ok? ==> (r.value <==> s in TrueSpellings)
    ensures r.Err? ==> r.error == ConversionFailed
  {
    match s
    case "1" | "t" | "T" | "true" | "TRUE" | "True" => Ok(true)
    case "0" | "f" | "F" | "false" | "FALSE" | "False" => Ok(false)
    case _ => Err(ConversionFailed)
  }

  /**
   * Coercion reads back any in-range integer written in decimal, whatever
   * text without digits, '.' or '-' comes before it and whatever non-digit
   * text follows it.
   */
  lemma CoerceReadsFormatted(pre: string, v: int, tail: string, kind: IntKind)
    requires forall k :: 0 <= k < |pre| ==> !IsDigit(pre[k]) && pre[k] != '.' && pre[k] != '-'
    requires tail == [] || !IsDigit(tail[0])
    requires InRange(v, kind)
    ensures CoerceInt(pre + FormatInt(v) + tail, kind) == Ok(v)
  {
    assert v < 0 ==> kind.signed;
    ReadsFormatted(pre, v, tail, kind.signed);
  }

  /** A '-' written in front of a magnitude makes a signed reading negative. */
  lemma ReadsNegative(pre: string, m: nat, tail: string)
    requires forall k :: 0 <= k < |pre| ==> !IsDigit(pre[k]) && pre[k] != '.'
    requires tail == [] || !IsDigit(tail[0])
    ensures LeadingInt(pre + "-" + FormatDecimal(m) + tail, true) == Some(-(m as int))
  {
    var pre' := pre + "-";
    forall k | 0 <= k < |pre'| ensures !IsDigit(pre'[k]) && pre'[k] != '.' {
      if k < |pre| { assert pre'[k] == pre[k]; }
    }
    ReadsDigitRun(pre', FormatDecimal(m), tail, true);
  }

  /** Without a '-' in front, a magnitude reads as itself for either kind. */
  lemma ReadsNonNegative(pre: string, m: nat, tail: string, signed: bool)
    requires forall k :: 0 <= k < |pre| ==> !IsDigit(pre[k]) && pre[k] != '.' && pre[k] != '-'
    requires tail == [] || !IsDigit(tail[0])
    ensures LeadingInt(pre + FormatDecimal(m) + tail, signed) == Some(m)
  {
    assert |pre| > 0 ==> pre[|pre| - 1] != '-';
    ReadsDigitRun(pre, FormatDecimal(m), tail, signed);
  }

  /** An integer written in decimal reads back as itself (a negative one only for signed kinds). */
  lemma ReadsFormatted(pre: string, v: int, tail: string, signed: bool)
    requires forall k :: 0 <= k < |pre| ==> !IsDigit(pre[k]) && pre[k] != '.' && pre[k] != '-'
    requires tail == [] || !IsDigit(tail[0])
    requires v < 0 ==> signed
    ensures LeadingInt(pre + FormatInt(v) + tail, signed) == Some(v)
  {
    if v < 0 {
      var f := FormatDecimal(-v);
      ReadsNegative(pre, -v, tail);
      assert FormatInt(v) == "-" + f;
      assert pre + ("-" + f) == pre + "-" + f;
    } else {
      ReadsNonNegative(pre, v, tail, signed);
    }
  }
}
