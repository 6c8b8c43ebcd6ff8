/**
 * Facts about the fixed inputs of the library's functional tables: the
 * segments of each path and the integer read from each literal. Each fact
 * is its own lemma so that the table lemmas stay small. The `Text` and
 * `Path_` lemmas only split proof obligations about literal lists and
 * strings out of the table lemmas; they state nothing about the library.
 */
module TableFacts {
  import opened Outcomes
  import opened Paths
  import opened Coerce
  import opened Spans
  import opened Rows

  lemma Segments1(p: string, a: string)
    requires Delim !in a && Strip(p) == a
    ensures Segments(p) == [a]
  {
    SegmentsOf(p, [a]);
  }

  lemma Segments2(p: string, a: string, b: string)
    requires Delim !in a && Delim !in b && Strip(p) == a + [Delim] + b
    ensures Segments(p) == [a, b]
  {
    assert [a, b][1..] == [b];
    SegmentsOf(p, [a, b]);
  }

  lemma Segments3(p: string, a: string, b: string, c: string)
    requires Delim !in a && Delim !in b && Delim !in c
    requires Strip(p) == a + [Delim] + b + [Delim] + c
    ensures Segments(p) == [a, b, c]
  {
    assert [a, b, c][1..] == [b, c];
    assert [b, c][1..] == [c];
    assert Join([b, c]) == b + [Delim] + c;
    assert Join([a, b, c]) == a + [Delim] + (b + [Delim] + c);
    SegmentsOf(p, [a, b, c]);
  }

  lemma Segments4(p: string, a: string, b: string, c: string, d: string)
    requires Delim !in a && Delim !in b && Delim !in c && Delim !in d
    requires Strip(p) == a + [Delim] + b + [Delim] + c + [Delim] + d
    ensures Segments(p) == [a, b, c, d]
  {
    assert [a, b, c, d][1..] == [b, c, d];
    assert [b, c, d][1..] == [c, d];
    assert [c, d][1..] == [d];
    assert Join([c, d]) == c + [Delim] + d;
    assert Join([b, c, d]) == b + [Delim] + (c + [Delim] + d);
    assert Join([a, b, c, d]) == a + [Delim] + (b + [Delim] + (c + [Delim] + d));
    SegmentsOf(p, [a, b, c, d]);
  }

  /** Every integer kind holds 0 to 127, and a signed kind also -128 to -1. */
  lemma SmallFits(v: int, kind: IntKind)
    requires 0 <= v < 128 || (kind.signed && -128 <= v < 0)
    ensures InRange(v, kind)
  {
    assert Pow2(7) == 128;
    Pow2Monotone(7, kind.width.Bits() - 1);
  }

  /** No signed kind holds 2^63 or more. */
  lemma TooBigForSigned(v: int, kind: IntKind)
    requires kind.signed && v >= 0x8000_0000_0000_0000
    ensures !InRange(v, kind)
  {
    Pow2Of64();
    Pow2Monotone(kind.width.Bits() - 1, 63);
  }

  /** The largest 64-bit unsigned value fits the 64-bit unsigned kind. */
  lemma Uint64MaxFits()
    ensures InRange(0xFFFF_FFFF_FFFF_FFFF, Uint64)
  {
    Pow2Of64();
  }

  /** Decimal digits hold no delimiter. */
  lemma DecimalNoDelim(n: nat)
    ensures Delim !in FormatDecimal(n)
  {
    var d := FormatDecimal(n);
    forall k | 0 <= k < |d|
      ensures d[k] != Delim
    {
      assert IsDigit(d[k]);
    }
  }

  /** A rooted path whose one segment is a number written in decimal. */
  lemma DecimalPath(n: nat)
    ensures Segments([Delim] + FormatDecimal(n)) == [FormatDecimal(n)]
  {
    var d := FormatDecimal(n);
    DecimalNoDelim(n);
    assert Strip([Delim] + d) == d;
    Segments1([Delim] + d, d);
  }

  /** A rooted path of a key followed by a number written in decimal. */
  lemma KeyDecimalPath(key: string, n: nat)
    requires Delim !in key
    ensures Segments([Delim] + key + [Delim] + FormatDecimal(n)) == [key, FormatDecimal(n)]
  {
    var d := FormatDecimal(n);
    DecimalNoDelim(n);
    assert Strip([Delim] + key + [Delim] + d) == key + [Delim] + d;
    Segments2([Delim] + key + [Delim] + d, key, d);
  }

  /** A number written in decimal, alone in its segment, reads as itself. */
  lemma ReadsDecimal(n: nat, signed: bool)
    ensures LeadingInt(FormatDecimal(n), signed) == Some(n)
  {
    ReadsNonNegative("", n, "", signed);
    assert "" + FormatDecimal(n) + "" == FormatDecimal(n);
  }


  lemma Reads_0Dot1(signed: bool)
    ensures LeadingInt("0.1", signed) == Some(0)
  {
    ReadsDigitRun("", "0", ".1", signed);
  }

  lemma Reads_0Dot2a(signed: bool)
    ensures LeadingInt("0.2a", signed) == Some(0)
  {
    ReadsDigitRun("", "0", ".2a", signed);
  }

  lemma Reads_aaaa1Dot3(signed: bool)
    ensures LeadingInt("aaaa1.3", signed) == Some(1)
  {
    ReadsDigitRun("aaaa", "1", ".3", signed);
  }

  lemma Reads_4(signed: bool)
    ensures LeadingInt("4", signed) == Some(4)
  {
    ReadsDigitRun("", "4", "", signed);
  }

  lemma Reads_5aaaa(signed: bool)
    ensures LeadingInt("5aaaa", signed) == Some(5)
  {
    ReadsDigitRun("", "5", "aaaa", signed);
  }

  lemma Reads_aaa6aa(signed: bool)
    ensures LeadingInt("aaa6aa", signed) == Some(6)
  {
    ReadsDigitRun("aaa", "6", "aa", signed);
  }

  lemma Reads_Dot7Dotaaaa(signed: bool)
    ensures LeadingInt(".7.aaaa", signed) == Some(0)
  {
    ReadsFraction("", '7', ".aaaa", signed);
  }

  lemma Reads_Dot8aa(signed: bool)
    ensures LeadingInt(".8aa", signed) == Some(0)
  {
    ReadsFraction("", '8', "aa", signed);
  }

  lemma Reads_Dash9(signed: bool)
    ensures LeadingInt("-9", signed) == Some(if signed then -9 else 9)
  {
    ReadsDigitRun("-", "9", "", signed);
  }

  lemma Reads_10Dash(signed: bool)
    ensures LeadingInt("10-", signed) == Some(10)
  {
    ReadsDigitRun("", "10", "-", signed);
  }

  lemma Reads_3Dot14ePlus11(signed: bool)
    ensures LeadingInt("3.14e+11", signed) == Some(3)
  {
    ReadsDigitRun("", "3", ".14e+11", signed);
  }

  lemma Reads_3Dot14eDotPlus12(signed: bool)
    ensures LeadingInt("3.14e.+12", signed) == Some(3)
  {
    ReadsDigitRun("", "3", ".14e.+12", signed);
  }

  lemma Reads_3Dot14ePlusDot13(signed: bool)
    ensures LeadingInt("3.14e+.13", signed) == Some(3)
  {
    ReadsDigitRun("", "3", ".14e+.13", signed);
  }

  lemma Reads_Dot(signed: bool)
    ensures LeadingInt(".", signed) == None
  {
  }

  lemma Reads_error(signed: bool)
    ensures LeadingInt("error", signed) == None
  {
  }

  lemma Text22()
    ensures Names(["test1"], 0, 0)
    ensures ["test1"][0] == "test1"
  {
  }

  lemma Text23()
    ensures Names(["test1", "test-2"], 1, 1)
    ensures ["test1", "test-2"][1] == "test-2"
  {
  }

  lemma Text24()
    ensures Names(["test1", "test-2", "test_3", ""], 2, 2)
    ensures ["test1", "test-2", "test_3", ""][2] == "test_3"
  {
  }

  lemma Text25()
    ensures Names(["test4", "t4"], 0, 0)
    ensures ["test4", "t4"][0] == "test4"
  {
  }

  lemma Text26()
    ensures Names(["", "test5"], 1, 1)
    ensures ["", "test5"][1] == "test5"
  {
  }

  lemma Text27()
    ensures Names(["test6", "", ""], 1, 1)
    ensures ["test6", "", ""][1] == ""
  {
  }

  lemma Text28()
    ensures !(-|["test7"]| <= 3 < |["test7"]|)
  {
  }

  lemma Text29()
    ensures Names(["", "test8"], 0, 0)
    ensures ["", "test8"][0] == ""
  {
  }

  lemma Text30()
    ensures Names([""], 0, 0)
    ensures [""][0] == ""
  {
  }

  lemma Text31()
    ensures Names(["test1"], -1, 0)
    ensures ["test1"][0] == "test1"
  {
  }

  lemma Text32()
    ensures Names(["test1", "test-2"], -1, 1)
    ensures ["test1", "test-2"][1] == "test-2"
  {
  }

  lemma Text33()
    ensures Names(["test1", "test-2"], -2, 0)
    ensures ["test1", "test-2"][0] == "test1"
  {
  }

  lemma Text34()
    ensures Names(["test1", "test-2", "test_3"], -3, 0)
    ensures ["test1", "test-2", "test_3"][0] == "test1"
  {
  }

  lemma Text35()
    ensures Names(["test4", "t4", ""], -1, 2)
    ensures ["test4", "t4", ""][2] == ""
  {
  }

  lemma Text36()
    ensures Names(["", "test5"], -1, 1)
    ensures ["", "test5"][1] == "test5"
  {
  }

  lemma Text37()
    ensures Names(["test6", "", ""], -1, 2)
    ensures ["test6", "", ""][2] == ""
  {
  }

  lemma Text38()
    ensures !(-|["test7"]| <= -3 < |["test7"]|)
  {
  }

  lemma Text39()
    ensures Names(["", "test8"], -2, 0)
    ensures ["", "test8"][0] == ""
  {
  }

  lemma Text40()
    ensures Names([""], -1, 0)
    ensures [""][0] == ""
  {
  }

  lemma Text69()
    ensures Names(["0.1"], 0, 0)
    ensures ["0.1"][0] == "0.1"
  {
  }

  lemma Text70()
    ensures Names(["0.2a"], 0, 0)
    ensures ["0.2a"][0] == "0.2a"
  {
  }

  lemma Text71()
    ensures Names(["aaaa1.3"], 0, 0)
    ensures ["aaaa1.3"][0] == "aaaa1.3"
  {
  }

  lemma Text72()
    ensures Names(["4"], 0, 0)
    ensures ["4"][0] == "4"
  {
  }

  lemma Text73()
    ensures Names(["5aaaa"], 0, 0)
    ensures ["5aaaa"][0] == "5aaaa"
  {
  }

  lemma Text74()
    ensures Names(["aaa6aa"], 0, 0)
    ensures ["aaa6aa"][0] == "aaa6aa"
  {
  }

  lemma Text75()
    ensures Names([".7.aaaa"], 0, 0)
    ensures [".7.aaaa"][0] == ".7.aaaa"
  {
  }

  lemma Text76()
    ensures Names([".8aa"], 0, 0)
    ensures [".8aa"][0] == ".8aa"
  {
  }

  lemma Text77()
    ensures Names(["-9"], 0, 0)
    ensures ["-9"][0] == "-9"
  {
  }

  lemma Text78()
    ensures Names(["-9"], -1, 0)
    ensures ["-9"][0] == "-9"
  {
  }

  lemma Text79()
    ensures Names(["10-"], 0, 0)
    ensures ["10-"][0] == "10-"
  {
  }

  lemma Text80()
    ensures Names(["3.14e+11"], 0, 0)
    ensures ["3.14e+11"][0] == "3.14e+11"
  {
  }

  lemma Text81()
    ensures Names(["3.14e.+12"], 0, 0)
    ensures ["3.14e.+12"][0] == "3.14e.+12"
  {
  }

  lemma Text82()
    ensures Names(["3.14e+.13"], 0, 0)
    ensures ["3.14e+.13"][0] == "3.14e+.13"
  {
  }

  lemma Text83()
    ensures Names(["3.14e+.13"], -1, 0)
    ensures ["3.14e+.13"][0] == "3.14e+.13"
  {
  }

  lemma Text84()
    ensures !(-|["8"]| <= 1 < |["8"]|)
  {
  }

  lemma Text85()
    ensures Names(["."], 0, 0)
    ensures ["."][0] == "."
  {
  }

  lemma Text86()
    ensures Names(["error"], 0, 0)
    ensures ["error"][0] == "error"
  {
  }

  lemma Text179()
    ensures Names([FormatDecimal(0xFFFF_FFFF_FFFF_FFFF)], 0, 0)
    ensures [FormatDecimal(0xFFFF_FFFF_FFFF_FFFF)][0] == FormatDecimal(0xFFFF_FFFF_FFFF_FFFF)
  {
  }

  lemma Text198()
    ensures Names(["0.1"], 0, 0)
    ensures ["0.1"][0] == "0.1"
  {
  }

  lemma Text199()
    ensures Names(["0.2a"], 0, 0)
    ensures ["0.2a"][0] == "0.2a"
  {
  }

  lemma Text200()
    ensures Names(["aaaa1.3"], 0, 0)
    ensures ["aaaa1.3"][0] == "aaaa1.3"
  {
  }

  lemma Text201()
    ensures Names(["4"], 0, 0)
    ensures ["4"][0] == "4"
  {
  }

  lemma Text202()
    ensures Names(["5aaaa"], 0, 0)
    ensures ["5aaaa"][0] == "5aaaa"
  {
  }

  lemma Text203()
    ensures Names(["aaa6aa"], 0, 0)
    ensures ["aaa6aa"][0] == "aaa6aa"
  {
  }

  lemma Text204()
    ensures Names([".7.aaaa"], 0, 0)
    ensures [".7.aaaa"][0] == ".7.aaaa"
  {
  }

  lemma Text205()
    ensures Names([".8aa"], 0, 0)
    ensures [".8aa"][0] == ".8aa"
  {
  }

  lemma Text206()
    ensures Names(["-9"], 0, 0)
    ensures ["-9"][0] == "-9"
  {
  }

  lemma Text207()
    ensures Names(["-9"], -1, 0)
    ensures ["-9"][0] == "-9"
  {
  }

  lemma Text208()
    ensures Names(["10-"], 0, 0)
    ensures ["10-"][0] == "10-"
  {
  }

  lemma Text209()
    ensures Names(["3.14e+11"], 0, 0)
    ensures ["3.14e+11"][0] == "3.14e+11"
  {
  }

  lemma Text210()
    ensures Names(["3.14e.+12"], 0, 0)
    ensures ["3.14e.+12"][0] == "3.14e.+12"
  {
  }

  lemma Text211()
    ensures Names(["3.14e+.13"], 0, 0)
    ensures ["3.14e+.13"][0] == "3.14e+.13"
  {
  }

  lemma Text212()
    ensures Names(["3.14e+.13"], -1, 0)
    ensures ["3.14e+.13"][0] == "3.14e+.13"
  {
  }

  lemma Text213()
    ensures !(-|["8"]| <= 1 < |["8"]|)
  {
  }

  lemma Text214()
    ensures Names(["."], 0, 0)
    ensures ["."][0] == "."
  {
  }

  lemma Text215()
    ensures Names(["error"], 0, 0)
    ensures ["error"][0] == "error"
  {
  }

  lemma Text216()
    ensures Names([FormatDecimal(0xFFFF_FFFF_FFFF_FFFF)], 0, 0)
    ensures [FormatDecimal(0xFFFF_FFFF_FFFF_FFFF)][0] == FormatDecimal(0xFFFF_FFFF_FFFF_FFFF)
  {
  }

  lemma Text317()
    ensures Names(["1"], 0, 0)
    ensures ["1"][0] == "1"
    ensures CoerceBool("1") == Ok(true)
  {
  }

  lemma Text318()
    ensures Names(["t"], 0, 0)
    ensures ["t"][0] == "t"
    ensures CoerceBool("t") == Ok(true)
  {
  }

  lemma Text319()
    ensures Names(["T"], 0, 0)
    ensures ["T"][0] == "T"
    ensures CoerceBool("T") == Ok(true)
  {
  }

  lemma Text320()
    ensures Names(["true"], 0, 0)
    ensures ["true"][0] == "true"
    ensures CoerceBool("true") == Ok(true)
  {
  }

  lemma Text321()
    ensures Names(["TRUE"], 0, 0)
    ensures ["TRUE"][0] == "TRUE"
    ensures CoerceBool("TRUE") == Ok(true)
  {
  }

  lemma Text322()
    ensures Names(["True"], 0, 0)
    ensures ["True"][0] == "True"
    ensures CoerceBool("True") == Ok(true)
  {
  }

  lemma Text323()
    ensures Names(["0"], 0, 0)
    ensures ["0"][0] == "0"
    ensures CoerceBool("0") == Ok(false)
  {
  }

  lemma Text324()
    ensures Names(["f"], 0, 0)
    ensures ["f"][0] == "f"
    ensures CoerceBool("f") == Ok(false)
  {
  }

  lemma Text325()
    ensures Names(["F"], 0, 0)
    ensures ["F"][0] == "F"
    ensures CoerceBool("F") == Ok(false)
  {
  }

  lemma Text326()
    ensures Names(["F"], -1, 0)
    ensures ["F"][0] == "F"
    ensures CoerceBool("F") == Ok(false)
  {
  }

  lemma Text327()
    ensures Names(["false"], 0, 0)
    ensures ["false"][0] == "false"
    ensures CoerceBool("false") == Ok(false)
  {
  }

  lemma Text328()
    ensures Names(["FALSE"], 0, 0)
    ensures ["FALSE"][0] == "FALSE"
    ensures CoerceBool("FALSE") == Ok(false)
  {
  }

  lemma Text329()
    ensures Names(["False"], 0, 0)
    ensures ["False"][0] == "False"
    ensures CoerceBool("False") == Ok(false)
  {
  }

  lemma Text330()
    ensures !(-|["True"]| <= 1 < |["True"]|)
  {
  }

  lemma Text331()
    ensures Names(["error"], 0, 0)
    ensures ["error"][0] == "error"
    ensures CoerceBool("error") == Err(ConversionFailed)
  {
  }

  lemma Text425()
    ensures FirstMatch(["test1", "res1", "non1"], "test1", 0)
    ensures ["test1", "res1", "non1"][0 + 1] == "res1"
  {
  }

  lemma Text426()
    ensures FirstMatch(["test2", "res2", "non2"], "test2", 0)
    ensures ["test2", "res2", "non2"][0 + 1] == "res2"
  {
  }

  lemma Text427()
    ensures FirstMatch(["3", "33", "333"], "3", 0)
    ensures ["3", "33", "333"][0 + 1] == "33"
  {
  }

  lemma Text428()
    ensures FirstMatch(["4", "44", "444"], "4", 0)
    ensures ["4", "44", "444"][0 + 1] == "44"
  {
  }

  lemma Text429()
    ensures FirstMatch(["5", "55", "555"], "55", 1)
    ensures ["5", "55", "555"][1 + 1] == "555"
  {
  }

  lemma Text430()
    ensures FirstMatch(["6", "66", "666"], "66", 1)
    ensures ["6", "66", "666"][1 + 1] == "666"
  {
  }

  lemma Text431()
    ensures "77" !in ["77"][..|["77"]| - 1]
  {
  }

  lemma Text432()
    ensures "88" !in [""][..|[""]| - 1]
  {
  }

  lemma Text461()
    ensures FirstMatch(["t", "0.1"], "t", 0)
    ensures ["t", "0.1"][0 + 1] == "0.1"
  {
  }

  lemma Text462()
    ensures FirstMatch(["2", "0.2a"], "2", 0)
    ensures ["2", "0.2a"][0 + 1] == "0.2a"
  {
  }

  lemma Text463()
    ensures FirstMatch(["xx", "aaaa1.3"], "xx", 0)
    ensures ["xx", "aaaa1.3"][0 + 1] == "aaaa1.3"
  {
  }

  lemma Text464()
    ensures FirstMatch(["id", "4"], "id", 0)
    ensures ["id", "4"][0 + 1] == "4"
  {
  }

  lemma Text465()
    ensures FirstMatch(["d", "5aaaa"], "d", 0)
    ensures ["d", "5aaaa"][0 + 1] == "5aaaa"
  {
  }

  lemma Text466()
    ensures FirstMatch(["d", "e", "aaa6aa"], "e", 1)
    ensures ["d", "e", "aaa6aa"][1 + 1] == "aaa6aa"
  {
  }

  lemma Text467()
    ensures FirstMatch(["a", "g", "r", ".7.aaaa"], "r", 2)
    ensures ["a", "g", "r", ".7.aaaa"][2 + 1] == ".7.aaaa"
  {
  }

  lemma Text468()
    ensures FirstMatch(["g", ".8aa", "gf", "4"], "g", 0)
    ensures ["g", ".8aa", "gf", "4"][0 + 1] == ".8aa"
  {
  }

  lemma Text469()
    ensures FirstMatch(["x", "-9"], "x", 0)
    ensures ["x", "-9"][0 + 1] == "-9"
  {
  }

  lemma Text470()
    ensures FirstMatch(["w", "rr", "10-"], "rr", 1)
    ensures ["w", "rr", "10-"][1 + 1] == "10-"
  {
  }

  lemma Text471()
    ensures FirstMatch(["h", "3.14e+11"], "h", 0)
    ensures ["h", "3.14e+11"][0 + 1] == "3.14e+11"
  {
  }

  lemma Text472()
    ensures FirstMatch(["y", "3.14e.+12"], "y", 0)
    ensures ["y", "3.14e.+12"][0 + 1] == "3.14e.+12"
  {
  }

  lemma Text473()
    ensures FirstMatch(["yy", "3.14e+.13"], "yy", 0)
    ensures ["yy", "3.14e+.13"][0 + 1] == "3.14e+.13"
  {
  }

  lemma Text474()
    ensures FirstMatch(["hh", "s", "3.14e+.13"], "s", 1)
    ensures ["hh", "s", "3.14e+.13"][1 + 1] == "3.14e+.13"
  {
  }

  lemma Text475()
    ensures FirstMatch(["g", "."], "g", 0)
    ensures ["g", "."][0 + 1] == "."
  {
  }

  lemma Text476()
    ensures FirstMatch(["j", "error"], "j", 0)
    ensures ["j", "error"][0 + 1] == "error"
  {
  }

  lemma Text477()
    ensures "j" !in ["jj"][..|["jj"]| - 1]
  {
  }

  lemma Text570()
    ensures FirstMatch(["k", FormatDecimal(0xFFFF_FFFF_FFFF_FFFF)], "k", 0)
    ensures ["k", FormatDecimal(0xFFFF_FFFF_FFFF_FFFF)][0 + 1] == FormatDecimal(0xFFFF_FFFF_FFFF_FFFF)
  {
  }

  lemma Text589()
    ensures FirstMatch(["t", "0.1"], "t", 0)
    ensures ["t", "0.1"][0 + 1] == "0.1"
  {
  }

  lemma Text590()
    ensures FirstMatch(["2", "0.2a"], "2", 0)
    ensures ["2", "0.2a"][0 + 1] == "0.2a"
  {
  }

  lemma Text591()
    ensures FirstMatch(["xx", "aaaa1.3"], "xx", 0)
    ensures ["xx", "aaaa1.3"][0 + 1] == "aaaa1.3"
  {
  }

  lemma Text592()
    ensures FirstMatch(["id", "4"], "id", 0)
    ensures ["id", "4"][0 + 1] == "4"
  {
  }

  lemma Text593()
    ensures FirstMatch(["d", "5aaaa"], "d", 0)
    ensures ["d", "5aaaa"][0 + 1] == "5aaaa"
  {
  }

  lemma Text594()
    ensures FirstMatch(["d", "e", "aaa6aa"], "e", 1)
    ensures ["d", "e", "aaa6aa"][1 + 1] == "aaa6aa"
  {
  }

  lemma Text595()
    ensures FirstMatch(["a", "g", "r", ".7.aaaa"], "r", 2)
    ensures ["a", "g", "r", ".7.aaaa"][2 + 1] == ".7.aaaa"
  {
  }

  lemma Text596()
    ensures FirstMatch(["g", ".8aa", "gf", "4"], "g", 0)
    ensures ["g", ".8aa", "gf", "4"][0 + 1] == ".8aa"
  {
  }

  lemma Text597()
    ensures FirstMatch(["x", "-9"], "x", 0)
    ensures ["x", "-9"][0 + 1] == "-9"
  {
  }

  lemma Text598()
    ensures FirstMatch(["w", "rr", "10-"], "rr", 1)
    ensures ["w", "rr", "10-"][1 + 1] == "10-"
  {
  }

  lemma Text599()
    ensures FirstMatch(["h", "3.14e+11"], "h", 0)
    ensures ["h", "3.14e+11"][0 + 1] == "3.14e+11"
  {
  }

  lemma Text600()
    ensures FirstMatch(["y", "3.14e.+12"], "y", 0)
    ensures ["y", "3.14e.+12"][0 + 1] == "3.14e.+12"
  {
  }

  lemma Text601()
    ensures FirstMatch(["yy", "3.14e+.13"], "yy", 0)
    ensures ["yy", "3.14e+.13"][0 + 1] == "3.14e+.13"
  {
  }

  lemma Text602()
    ensures FirstMatch(["hh", "s", "3.14e+.13"], "s", 1)
    ensures ["hh", "s", "3.14e+.13"][1 + 1] == "3.14e+.13"
  {
  }

  lemma Text603()
    ensures FirstMatch(["g", "."], "g", 0)
    ensures ["g", "."][0 + 1] == "."
  {
  }

  lemma Text604()
    ensures FirstMatch(["j", "error"], "j", 0)
    ensures ["j", "error"][0 + 1] == "error"
  {
  }

  lemma Text605()
    ensures "j" !in ["jj"][..|["jj"]| - 1]
  {
  }

  lemma Text606()
    ensures FirstMatch(["k", FormatDecimal(12414143242534534346456456457457456346756868686524234)], "k", 0)
    ensures ["k", FormatDecimal(12414143242534534346456456457457456346756868686524234)][0 + 1] == FormatDecimal(12414143242534534346456456457457456346756868686524234)
  {
  }

  lemma Text707()
    ensures FirstMatch(["a", "1"], "a", 0)
    ensures ["a", "1"][0 + 1] == "1"
    ensures CoerceBool("1") == Ok(true)
  {
  }

  lemma Text708()
    ensures FirstMatch(["a", "b", "t"], "b", 1)
    ensures ["a", "b", "t"][1 + 1] == "t"
    ensures CoerceBool("t") == Ok(true)
  {
  }

  lemma Text709()
    ensures FirstMatch(["c", "T"], "c", 0)
    ensures ["c", "T"][0 + 1] == "T"
    ensures CoerceBool("T") == Ok(true)
  {
  }

  lemma Text710()
    ensures FirstMatch(["3", "true"], "3", 0)
    ensures ["3", "true"][0 + 1] == "true"
    ensures CoerceBool("true") == Ok(true)
  {
  }

  lemma Text711()
    ensures FirstMatch(["4", "44", "TRUE"], "44", 1)
    ensures ["4", "44", "TRUE"][1 + 1] == "TRUE"
    ensures CoerceBool("TRUE") == Ok(true)
  {
  }

  lemma Text712()
    ensures FirstMatch(["h", "5", "True", "5"], "5", 1)
    ensures ["h", "5", "True", "5"][1 + 1] == "True"
    ensures CoerceBool("True") == Ok(true)
  {
  }

  lemma Text713()
    ensures FirstMatch(["0", "0"], "0", 0)
    ensures ["0", "0"][0 + 1] == "0"
    ensures CoerceBool("0") == Ok(false)
  {
  }

  lemma Text714()
    ensures FirstMatch(["h", "f"], "h", 0)
    ensures ["h", "f"][0 + 1] == "f"
    ensures CoerceBool("f") == Ok(false)
  {
  }

  lemma Text715()
    ensures FirstMatch(["F", "F"], "F", 0)
    ensures ["F", "F"][0 + 1] == "F"
    ensures CoerceBool("F") == Ok(false)
  {
  }

  lemma Text716()
    ensures FirstMatch(["g", "F"], "g", 0)
    ensures ["g", "F"][0 + 1] == "F"
    ensures CoerceBool("F") == Ok(false)
  {
  }

  lemma Text717()
    ensures FirstMatch(["j", "false"], "j", 0)
    ensures ["j", "false"][0 + 1] == "false"
    ensures CoerceBool("false") == Ok(false)
  {
  }

  lemma Text718()
    ensures FirstMatch(["k", "FALSE"], "k", 0)
    ensures ["k", "FALSE"][0 + 1] == "FALSE"
    ensures CoerceBool("FALSE") == Ok(false)
  {
  }

  lemma Text719()
    ensures FirstMatch(["l", "False"], "l", 0)
    ensures ["l", "False"][0 + 1] == "False"
    ensures CoerceBool("False") == Ok(false)
  {
  }

  lemma Text720()
    ensures "nx" !in ["True"][..|["True"]| - 1]
  {
  }

  lemma Text721()
    ensures FirstMatch(["gg", "error"], "gg", 0)
    ensures ["gg", "error"][0 + 1] == "error"
    ensures CoerceBool("error") == Err(ConversionFailed)
  {
  }

  lemma Text813()
    ensures |"/test1"| > 0 && "/test1"[0] == Delim
    ensures FirstPos(|["test1"]|, 0) == 0
    ensures 1 == LastPos(|["test1"]|, 0)
    ensures 0 < 1 <= |["test1"]|
    ensures ["test1"][..1] == ["test1"]
    ensures "/test1" == [Delim] + Join(["test1"])
  {
  }

  lemma Text814()
    ensures |"/test1"| > 0 && "/test1"[0] == Delim
    ensures FirstPos(|["test1"]|, 0) == 0
    ensures 1 == LastPos(|["test1"]|, 1)
    ensures 0 < 1 <= |["test1"]|
    ensures ["test1"][..1] == ["test1"]
    ensures "/test1" == [Delim] + Join(["test1"])
  {
  }

  lemma Text815()
    ensures |"/test1/test-2"| > 0 && "/test1/test-2"[0] == Delim
    ensures FirstPos(|["test1", "test-2"]|, 0) == 0
    ensures 1 == LastPos(|["test1", "test-2"]|, 1)
    ensures 0 < 1 <= |["test1", "test-2"]|
    ensures ["test1", "test-2"][..1] == ["test1"]
    ensures "/test1" == [Delim] + Join(["test1"])
  {
  }

  lemma Text816()
    ensures 1 == FirstPos(|["test1", "test-2", "test_3", ""]|, 1)
    ensures 2 == LastPos(|["test1", "test-2", "test_3", ""]|, 2)
    ensures 0 < 1 < 2 <= |["test1", "test-2", "test_3", ""]|
    ensures ["test1", "test-2", "test_3", ""][1..2] == ["test-2"]
    ensures "/test-2" == [Delim] + Join(["test-2"])
  {
  }

  lemma Text817()
    ensures |"test4/t4"| == 0 || "test4/t4"[0] != Delim
    ensures FirstPos(|["test4", "t4"]|, 0) == 0
    ensures 2 == LastPos(|["test4", "t4"]|, 0)
    ensures 0 < 2 <= |["test4", "t4"]|
    ensures ["test4", "t4"][..2] == ["test4", "t4"]
    ensures "test4/t4" == Join(["test4", "t4"])
  {
  }

  lemma Text818()
    ensures |"t444/t4"| == 0 || "t444/t4"[0] != Delim
    ensures FirstPos(|["t444", "t4"]|, 0) == 0
    ensures 1 == LastPos(|["t444", "t4"]|, 1)
    ensures 0 < 1 <= |["t444", "t4"]|
    ensures ["t444", "t4"][..1] == ["t444"]
    ensures "t444" == Join(["t444"])
  {
  }

  lemma Text819()
    ensures |"//test5"| > 0 && "//test5"[0] == Delim
    ensures FirstPos(|["", "test5"]|, 0) == 0
    ensures 1 == LastPos(|["", "test5"]|, 1)
    ensures 0 < 1 <= |["", "test5"]|
    ensures ["", "test5"][..1] == [""]
    ensures "/" == [Delim] + Join([""])
  {
  }

  lemma Text820()
    ensures |"/test6//"| > 0 && "/test6//"[0] == Delim
    ensures FirstPos(|["test6", "", ""]|, 0) == 0
    ensures 1 == LastPos(|["test6", "", ""]|, 1)
    ensures 0 < 1 <= |["test6", "", ""]|
    ensures ["test6", "", ""][..1] == ["test6"]
    ensures "/test6" == [Delim] + Join(["test6"])
  {
  }

  lemma Text821()
    ensures |"/t6//"| > 0 && "/t6//"[0] == Delim
    ensures FirstPos(|["t6", "", ""]|, 0) == 0
    ensures 2 == LastPos(|["t6", "", ""]|, 2)
    ensures 0 < 2 <= |["t6", "", ""]|
    ensures ["t6", "", ""][..2] == ["t6", ""]
    ensures "/t6/" == [Delim] + Join(["t6", ""])
  {
  }

  lemma Text822()
    ensures |"/66//"| > 0 && "/66//"[0] == Delim
    ensures FirstPos(|["66", "", ""]|, 0) == 0
    ensures 3 == LastPos(|["66", "", ""]|, 3)
    ensures 0 < 3 <= |["66", "", ""]|
    ensures ["66", "", ""][..3] == ["66", "", ""]
    ensures "/66//" == [Delim] + Join(["66", "", ""])
  {
  }

  lemma Text823()
    ensures var first, last := FirstPos(|["test7"]|, 1), LastPos(|["test7"]|, 2); !(0 <= first < |["test7"]| && 0 <= last <= |["test7"]| && first <= last)
  {
  }

  lemma Text824()
    ensures 0 == FirstPos(|["test8"]|, 0) == LastPos(|["test8"]|, -1)
    ensures 0 < |["test8"]|
  {
  }

  lemma Text825()
    ensures 1 == FirstPos(|["t", "9"]|, 1) == LastPos(|["t", "9"]|, 1)
    ensures 1 < |["t", "9"]|
  {
  }

  lemma Text826()
    ensures |"/"| > 0 && "/"[0] == Delim
    ensures FirstPos(|[""]|, 0) == 0
    ensures 1 == LastPos(|[""]|, 0)
    ensures 0 < 1 <= |[""]|
    ensures [""][..1] == [""]
    ensures "/" == [Delim] + Join([""])
  {
  }

  lemma Text827()
    ensures var first, last := FirstPos(|[""]|, 1), LastPos(|[""]|, 1); !(0 <= first < |[""]| && 0 <= last <= |[""]| && first <= last)
  {
  }

  lemma Text828()
    ensures 0 == FirstPos(|[""]|, -1) == LastPos(|[""]|, -1)
    ensures 0 < |[""]|
  {
  }

  lemma Text829()
    ensures 0 == FirstPos(|[""]|, 0) == LastPos(|[""]|, -1)
    ensures 0 < |[""]|
  {
  }

  lemma Text830()
    ensures |"/"| > 0 && "/"[0] == Delim
    ensures FirstPos(|[""]|, -1) == 0
    ensures 1 == LastPos(|[""]|, 0)
    ensures 0 < 1 <= |[""]|
    ensures [""][..1] == [""]
    ensures "/" == [Delim] + Join([""])
  {
  }

  lemma Text831()
    ensures |"/test1"| > 0 && "/test1"[0] == Delim
    ensures FirstPos(|["test1"]|, -1) == 0
    ensures 1 == LastPos(|["test1"]|, 0)
    ensures 0 < 1 <= |["test1"]|
    ensures ["test1"][..1] == ["test1"]
    ensures "/test1" == [Delim] + Join(["test1"])
  {
  }

  lemma Text832()
    ensures |"/test1/test-2"| > 0 && "/test1/test-2"[0] == Delim
    ensures FirstPos(|["test1", "test-2"]|, 0) == 0
    ensures 1 == LastPos(|["test1", "test-2"]|, -1)
    ensures 0 < 1 <= |["test1", "test-2"]|
    ensures ["test1", "test-2"][..1] == ["test1"]
    ensures "/test1" == [Delim] + Join(["test1"])
  {
  }

  lemma Text833()
    ensures |"/test1/test-2/test_3"| > 0 && "/test1/test-2/test_3"[0] == Delim
    ensures FirstPos(|["test1", "test-2", "test_3"]|, -3) == 0
    ensures 2 == LastPos(|["test1", "test-2", "test_3"]|, -1)
    ensures 0 < 2 <= |["test1", "test-2", "test_3"]|
    ensures ["test1", "test-2", "test_3"][..2] == ["test1", "test-2"]
    ensures "/test1/test-2" == [Delim] + Join(["test1", "test-2"])
  {
  }

  lemma Text834()
    ensures 1 == FirstPos(|["test11", "test-12"]|, -1) == LastPos(|["test11", "test-12"]|, -1)
    ensures 1 < |["test11", "test-12"]|
  {
  }

  lemma Text835()
    ensures var first, last := FirstPos(|["test11", "test-12"]|, -1), LastPos(|["test11", "test-12"]|, -3); !(0 <= first < |["test11", "test-12"]| && 0 <= last <= |["test11", "test-12"]| && first <= last)
  {
  }

  lemma Text836()
    ensures 1 == FirstPos(|["test4", "t4", ""]|, -2)
    ensures 2 == LastPos(|["test4", "t4", ""]|, -1)
    ensures 0 < 1 < 2 <= |["test4", "t4", ""]|
    ensures ["test4", "t4", ""][1..2] == ["t4"]
    ensures "/t4" == [Delim] + Join(["t4"])
  {
  }

  lemma Text837()
    ensures var first, last := FirstPos(|["test5", "test-6", "test_7"]|, -1), LastPos(|["test5", "test-6", "test_7"]|, -3); !(0 <= first < |["test5", "test-6", "test_7"]| && 0 <= last <= |["test5", "test-6", "test_7"]| && first <= last)
  {
  }

  lemma Text838()
    ensures var first, last := FirstPos(|["test7"]|, -3), LastPos(|["test7"]|, 0); !(0 <= first < |["test7"]| && 0 <= last <= |["test7"]| && first <= last)
  {
  }

  lemma Text868()
    ensures |["test1", "res1", "non1"]| == 3
    ensures FirstMatch(["test1", "res1", "non1"], "test1", 0)
    ensures 1 == 0 + 1
    ensures 1 == LastPos(3 - 1, 1)
    ensures 0 < 1 <= 3 - 1
    ensures ["test1", "res1", "non1"][1..1 + 1] == ["res1"]
    ensures "/res1" == [Delim] + Join(["res1"])
  {
  }

  lemma Text869()
    ensures |["test2", "res2", "non2"]| == 3
    ensures FirstMatch(["test2", "res2", "non2"], "test2", 0)
    ensures 1 == 0 + 1
    ensures 2 == LastPos(3 - 1, 2)
    ensures 0 < 2 <= 3 - 1
    ensures ["test2", "res2", "non2"][1..1 + 2] == ["res2", "non2"]
    ensures "/res2/non2" == [Delim] + Join(["res2", "non2"])
  {
  }

  lemma Text870()
    ensures |["3", "33", "333"]| == 3
    ensures FirstMatch(["3", "33", "333"], "3", 0)
    ensures 1 == 0 + 1
    ensures 1 == LastPos(3 - 1, 1)
    ensures 0 < 1 <= 3 - 1
    ensures ["3", "33", "333"][1..1 + 1] == ["33"]
    ensures "/33" == [Delim] + Join(["33"])
  {
  }

  lemma Text871()
    ensures |["4", "44", "444"]| == 3
    ensures FirstMatch(["4", "44", "444"], "4", 0)
    ensures 1 == 0 + 1
    ensures 2 == LastPos(3 - 1, 2)
    ensures 0 < 2 <= 3 - 1
    ensures ["4", "44", "444"][1..1 + 2] == ["44", "444"]
    ensures "/44/444" == [Delim] + Join(["44", "444"])
  {
  }

  lemma Text872()
    ensures |["5", "55", "555"]| == 3
    ensures FirstMatch(["5", "55", "555"], "55", 1)
    ensures 2 == 1 + 1
    ensures 1 == LastPos(3 - 2, 1)
    ensures 0 < 1 <= 3 - 2
    ensures ["5", "55", "555"][2..2 + 1] == ["555"]
    ensures "/555" == [Delim] + Join(["555"])
  {
  }

  lemma Text873()
    ensures FirstMatch(["6", "66", "666"], "66", 1)
    ensures var last := LastPos(|["6", "66", "666"]| - (1 + 1), 2); !(0 <= last <= |["6", "66", "666"]| - (1 + 1))
  {
  }

  lemma Text874()
    ensures "77" !in ["77"][..|["77"]| - 1]
  {
  }

  lemma Text875()
    ensures "88" !in [""][..|[""]| - 1]
  {
  }

  lemma Text876()
    ensures |["t1", "res1", "non1", "xtra"]| == 4
    ensures FirstMatch(["t1", "res1", "non1", "xtra"], "t1", 0)
    ensures 1 == 0 + 1
    ensures 1 == LastPos(4 - 1, -2)
    ensures 0 < 1 <= 4 - 1
    ensures ["t1", "res1", "non1", "xtra"][1..1 + 1] == ["res1"]
    ensures "/res1" == [Delim] + Join(["res1"])
  {
  }

  lemma Text877()
    ensures |["t2", "res2", "non2", "xtra"]| == 4
    ensures FirstMatch(["t2", "res2", "non2", "xtra"], "t2", 0)
    ensures 1 == 0 + 1
    ensures 3 == LastPos(4 - 1, 0)
    ensures 0 < 3 <= 4 - 1
    ensures ["t2", "res2", "non2", "xtra"][1..1 + 3] == ["res2", "non2", "xtra"]
    ensures "/res2/non2/xtra" == [Delim] + Join(["res2", "non2", "xtra"])
  {
  }

  lemma Text878()
    ensures |["3", "33", "333", "303"]| == 4
    ensures FirstMatch(["3", "33", "333", "303"], "3", 0)
    ensures 1 == 0 + 1
    ensures 2 == LastPos(4 - 1, -1)
    ensures 0 < 2 <= 4 - 1
    ensures ["3", "33", "333", "303"][1..1 + 2] == ["33", "333"]
    ensures "/33/333" == [Delim] + Join(["33", "333"])
  {
  }

  lemma Text879()
    ensures "77" !in ["77"][..|["77"]| - 1]
  {
  }

  lemma Text880()
    ensures "88" !in [""][..|[""]| - 1]
  {
  }

  lemma Facts22()
    ensures StringAtCase("/test1", ["test1"], 0, 0, "test1")
  {
    Path_test1();
    Text22();
  }

  lemma Facts23()
    ensures StringAtCase("/test1/test-2", ["test1", "test-2"], 1, 1, "test-2")
  {
    Path_test1_testDash2();
    Text23();
  }

  lemma Facts24()
    ensures StringAtCase("/test1/test-2/test_3/", ["test1", "test-2", "test_3", ""], 2, 2, "test_3")
  {
    Path_test1_testDash2_testLow3_Empty();
    Text24();
  }

  lemma Facts25()
    ensures StringAtCase("test4/t4", ["test4", "t4"], 0, 0, "test4")
  {
    RelPath_test4_t4();
    Text25();
  }

  lemma Facts26()
    ensures StringAtCase("//test5", ["", "test5"], 1, 1, "test5")
  {
    Path_Empty_test5();
    Text26();
  }

  lemma Facts27()
    ensures StringAtCase("/test6//", ["test6", "", ""], 1, 1, "")
  {
    Path_test6_Empty_Empty();
    Text27();
  }

  lemma Facts28()
    ensures StringOutCase("/test7", ["test7"], 3)
  {
    Path_test7();
    Text28();
  }

  lemma Facts29()
    ensures StringAtCase("//test8", ["", "test8"], 0, 0, "")
  {
    Path_Empty_test8();
    Text29();
  }

  lemma Facts30()
    ensures StringAtCase("/", [""], 0, 0, "")
  {
    Path_Empty();
    Text30();
  }

  lemma Facts31()
    ensures StringAtCase("/test1", ["test1"], -1, 0, "test1")
  {
    Path_test1();
    Text31();
  }

  lemma Facts32()
    ensures StringAtCase("/test1/test-2", ["test1", "test-2"], -1, 1, "test-2")
  {
    Path_test1_testDash2();
    Text32();
  }

  lemma Facts33()
    ensures StringAtCase("/test1/test-2", ["test1", "test-2"], -2, 0, "test1")
  {
    Path_test1_testDash2();
    Text33();
  }

  lemma Facts34()
    ensures StringAtCase("/test1/test-2/test_3", ["test1", "test-2", "test_3"], -3, 0, "test1")
  {
    Path_test1_testDash2_testLow3();
    Text34();
  }

  lemma Facts35()
    ensures StringAtCase("test4/t4/", ["test4", "t4", ""], -1, 2, "")
  {
    RelPath_test4_t4_Empty();
    Text35();
  }

  lemma Facts36()
    ensures StringAtCase("//test5", ["", "test5"], -1, 1, "test5")
  {
    Path_Empty_test5();
    Text36();
  }

  lemma Facts37()
    ensures StringAtCase("/test6//", ["test6", "", ""], -1, 2, "")
  {
    Path_test6_Empty_Empty();
    Text37();
  }

  lemma Facts38()
    ensures StringOutCase("/test7", ["test7"], -3)
  {
    Path_test7();
    Text38();
  }

  lemma Facts39()
    ensures StringAtCase("//test8", ["", "test8"], -2, 0, "")
  {
    Path_Empty_test8();
    Text39();
  }

  lemma Facts40()
    ensures StringAtCase("/", [""], -1, 0, "")
  {
    Path_Empty();
    Text40();
  }

  lemma Facts69(kind: IntKind)
    requires !kind.signed
    ensures IntAtCase("/0.1", ["0.1"], 0, 0, kind, "0.1", 0)
  {
    Path_0Dot1();
    Reads_0Dot1(kind.signed);
    SmallFits(0, kind);
    Text69();
  }

  lemma Facts70(kind: IntKind)
    requires !kind.signed
    ensures IntAtCase("/0.2a", ["0.2a"], 0, 0, kind, "0.2a", 0)
  {
    Path_0Dot2a();
    Reads_0Dot2a(kind.signed);
    SmallFits(0, kind);
    Text70();
  }

  lemma Facts71(kind: IntKind)
    requires !kind.signed
    ensures IntAtCase("/aaaa1.3", ["aaaa1.3"], 0, 0, kind, "aaaa1.3", 1)
  {
    Path_aaaa1Dot3();
    Reads_aaaa1Dot3(kind.signed);
    SmallFits(1, kind);
    Text71();
  }

  lemma Facts72(kind: IntKind)
    requires !kind.signed
    ensures IntAtCase("/4", ["4"], 0, 0, kind, "4", 4)
  {
    Path_4();
    Reads_4(kind.signed);
    SmallFits(4, kind);
    Text72();
  }

  lemma Facts73(kind: IntKind)
    requires !kind.signed
    ensures IntAtCase("/5aaaa", ["5aaaa"], 0, 0, kind, "5aaaa", 5)
  {
    Path_5aaaa();
    Reads_5aaaa(kind.signed);
    SmallFits(5, kind);
    Text73();
  }

  lemma Facts74(kind: IntKind)
    requires !kind.signed
    ensures IntAtCase("/aaa6aa", ["aaa6aa"], 0, 0, kind, "aaa6aa", 6)
  {
    Path_aaa6aa();
    Reads_aaa6aa(kind.signed);
    SmallFits(6, kind);
    Text74();
  }

  lemma Facts75(kind: IntKind)
    requires !kind.signed
    ensures IntAtCase("/.7.aaaa", [".7.aaaa"], 0, 0, kind, ".7.aaaa", 0)
  {
    Path_Dot7Dotaaaa();
    Reads_Dot7Dotaaaa(kind.signed);
    SmallFits(0, kind);
    Text75();
  }

  lemma Facts76(kind: IntKind)
    requires !kind.signed
    ensures IntAtCase("/.8aa", [".8aa"], 0, 0, kind, ".8aa", 0)
  {
    Path_Dot8aa();
    Reads_Dot8aa(kind.signed);
    SmallFits(0, kind);
    Text76();
  }

  lemma Facts77(kind: IntKind)
    requires !kind.signed
    ensures IntAtCase("/-9", ["-9"], 0, 0, kind, "-9", 9)
  {
    Path_Dash9();
    Reads_Dash9(kind.signed);
    SmallFits(9, kind);
    Text77();
  }

  lemma Facts78(kind: IntKind)
    requires !kind.signed
    ensures IntAtCase("/-9", ["-9"], -1, 0, kind, "-9", 9)
  {
    Path_Dash9();
    Reads_Dash9(kind.signed);
    SmallFits(9, kind);
    Text78();
  }

  lemma Facts79(kind: IntKind)
    requires !kind.signed
    ensures IntAtCase("/10-", ["10-"], 0, 0, kind, "10-", 10)
  {
    Path_10Dash();
    Reads_10Dash(kind.signed);
    SmallFits(10, kind);
    Text79();
  }

  lemma Facts80(kind: IntKind)
    requires !kind.signed
    ensures IntAtCase("/3.14e+11", ["3.14e+11"], 0, 0, kind, "3.14e+11", 3)
  {
    Path_3Dot14ePlus11();
    Reads_3Dot14ePlus11(kind.signed);
    SmallFits(3, kind);
    Text80();
  }

  lemma Facts81(kind: IntKind)
    requires !kind.signed
    ensures IntAtCase("/3.14e.+12", ["3.14e.+12"], 0, 0, kind, "3.14e.+12", 3)
  {
    Path_3Dot14eDotPlus12();
    Reads_3Dot14eDotPlus12(kind.signed);
    SmallFits(3, kind);
    Text81();
  }

  lemma Facts82(kind: IntKind)
    requires !kind.signed
    ensures IntAtCase("/3.14e+.13", ["3.14e+.13"], 0, 0, kind, "3.14e+.13", 3)
  {
    Path_3Dot14ePlusDot13();
    Reads_3Dot14ePlusDot13(kind.signed);
    SmallFits(3, kind);
    Text82();
  }

  lemma Facts83(kind: IntKind)
    requires !kind.signed
    ensures IntAtCase("/3.14e+.13", ["3.14e+.13"], -1, 0, kind, "3.14e+.13", 3)
  {
    Path_3Dot14ePlusDot13();
    Reads_3Dot14ePlusDot13(kind.signed);
    SmallFits(3, kind);
    Text83();
  }

  lemma Facts84(kind: IntKind)
    requires !kind.signed
    ensures IntOutCase("/8", ["8"], 1, kind)
  {
    Path_8();
    Text84();
  }

  lemma Facts85(kind: IntKind)
    requires !kind.signed
    ensures IntFailsCase("/.", ["."], 0, 0, kind, ".")
  {
    Path_Dot();
    Reads_Dot(kind.signed);
    Text85();
  }

  lemma Facts86(kind: IntKind)
    requires !kind.signed
    ensures IntFailsCase("/error", ["error"], 0, 0, kind, "error")
  {
    Path_error();
    Reads_error(kind.signed);
    Text86();
  }

  lemma Facts179()
    ensures IntAtCase([Delim] + FormatDecimal(0xFFFF_FFFF_FFFF_FFFF), [FormatDecimal(0xFFFF_FFFF_FFFF_FFFF)], 0, 0, Uint64, FormatDecimal(0xFFFF_FFFF_FFFF_FFFF), 0xFFFF_FFFF_FFFF_FFFF)
  {
    DecimalPath(0xFFFF_FFFF_FFFF_FFFF);
    ReadsDecimal(0xFFFF_FFFF_FFFF_FFFF, false);
    Uint64MaxFits();
    Text179();
  }

  lemma Facts198(kind: IntKind)
    requires kind.signed
    ensures IntAtCase("/0.1", ["0.1"], 0, 0, kind, "0.1", 0)
  {
    Path_0Dot1();
    Reads_0Dot1(kind.signed);
    SmallFits(0, kind);
    Text198();
  }

  lemma Facts199(kind: IntKind)
    requires kind.signed
    ensures IntAtCase("/0.2a", ["0.2a"], 0, 0, kind, "0.2a", 0)
  {
    Path_0Dot2a();
    Reads_0Dot2a(kind.signed);
    SmallFits(0, kind);
    Text199();
  }

  lemma Facts200(kind: IntKind)
    requires kind.signed
    ensures IntAtCase("/aaaa1.3", ["aaaa1.3"], 0, 0, kind, "aaaa1.3", 1)
  {
    Path_aaaa1Dot3();
    Reads_aaaa1Dot3(kind.signed);
    SmallFits(1, kind);
    Text200();
  }

  lemma Facts201(kind: IntKind)
    requires kind.signed
    ensures IntAtCase("/4", ["4"], 0, 0, kind, "4", 4)
  {
    Path_4();
    Reads_4(kind.signed);
    SmallFits(4, kind);
    Text201();
  }

  lemma Facts202(kind: IntKind)
    requires kind.signed
    ensures IntAtCase("/5aaaa", ["5aaaa"], 0, 0, kind, "5aaaa", 5)
  {
    Path_5aaaa();
    Reads_5aaaa(kind.signed);
    SmallFits(5, kind);
    Text202();
  }

  lemma Facts203(kind: IntKind)
    requires kind.signed
    ensures IntAtCase("/aaa6aa", ["aaa6aa"], 0, 0, kind, "aaa6aa", 6)
  {
    Path_aaa6aa();
    Reads_aaa6aa(kind.signed);
    SmallFits(6, kind);
    Text203();
  }

  lemma Facts204(kind: IntKind)
    requires kind.signed
    ensures IntAtCase("/.7.aaaa", [".7.aaaa"], 0, 0, kind, ".7.aaaa", 0)
  {
    Path_Dot7Dotaaaa();
    Reads_Dot7Dotaaaa(kind.signed);
    SmallFits(0, kind);
    Text204();
  }

  lemma Facts205(kind: IntKind)
    requires kind.signed
    ensures IntAtCase("/.8aa", [".8aa"], 0, 0, kind, ".8aa", 0)
  {
    Path_Dot8aa();
    Reads_Dot8aa(kind.signed);
    SmallFits(0, kind);
    Text205();
  }

  lemma Facts206(kind: IntKind)
    requires kind.signed
    ensures IntAtCase("/-9", ["-9"], 0, 0, kind, "-9", -9)
  {
    Path_Dash9();
    Reads_Dash9(kind.signed);
    SmallFits(-9, kind);
    Text206();
  }

  lemma Facts207(kind: IntKind)
    requires kind.signed
    ensures IntAtCase("/-9", ["-9"], -1, 0, kind, "-9", -9)
  {
    Path_Dash9();
    Reads_Dash9(kind.signed);
    SmallFits(-9, kind);
    Text207();
  }

  lemma Facts208(kind: IntKind)
    requires kind.signed
    ensures IntAtCase("/10-", ["10-"], 0, 0, kind, "10-", 10)
  {
    Path_10Dash();
    Reads_10Dash(kind.signed);
    SmallFits(10, kind);
    Text208();
  }

  lemma Facts209(kind: IntKind)
    requires kind.signed
    ensures IntAtCase("/3.14e+11", ["3.14e+11"], 0, 0, kind, "3.14e+11", 3)
  {
    Path_3Dot14ePlus11();
    Reads_3Dot14ePlus11(kind.signed);
    SmallFits(3, kind);
    Text209();
  }

  lemma Facts210(kind: IntKind)
    requires kind.signed
    ensures IntAtCase("/3.14e.+12", ["3.14e.+12"], 0, 0, kind, "3.14e.+12", 3)
  {
    Path_3Dot14eDotPlus12();
    Reads_3Dot14eDotPlus12(kind.signed);
    SmallFits(3, kind);
    Text210();
  }

  lemma Facts211(kind: IntKind)
    requires kind.signed
    ensures IntAtCase("/3.14e+.13", ["3.14e+.13"], 0, 0, kind, "3.14e+.13", 3)
  {
    Path_3Dot14ePlusDot13();
    Reads_3Dot14ePlusDot13(kind.signed);
    SmallFits(3, kind);
    Text211();
  }

  lemma Facts212(kind: IntKind)
    requires kind.signed
    ensures IntAtCase("/3.14e+.13", ["3.14e+.13"], -1, 0, kind, "3.14e+.13", 3)
  {
    Path_3Dot14ePlusDot13();
    Reads_3Dot14ePlusDot13(kind.signed);
    SmallFits(3, kind);
    Text212();
  }

  lemma Facts213(kind: IntKind)
    requires kind.signed
    ensures IntOutCase("/8", ["8"], 1, kind)
  {
    Path_8();
    Text213();
  }

  lemma Facts214(kind: IntKind)
    requires kind.signed
    ensures IntFailsCase("/.", ["."], 0, 0, kind, ".")
  {
    Path_Dot();
    Reads_Dot(kind.signed);
    Text214();
  }

  lemma Facts215(kind: IntKind)
    requires kind.signed
    ensures IntFailsCase("/error", ["error"], 0, 0, kind, "error")
  {
    Path_error();
    Reads_error(kind.signed);
    Text215();
  }

  lemma Facts216(kind: IntKind)
    requires kind.signed
    ensures IntFailsCase([Delim] + FormatDecimal(0xFFFF_FFFF_FFFF_FFFF), [FormatDecimal(0xFFFF_FFFF_FFFF_FFFF)], 0, 0, kind, FormatDecimal(0xFFFF_FFFF_FFFF_FFFF))
  {
    DecimalPath(0xFFFF_FFFF_FFFF_FFFF);
    ReadsDecimal(0xFFFF_FFFF_FFFF_FFFF, kind.signed);
    TooBigForSigned(0xFFFF_FFFF_FFFF_FFFF, kind);
    Text216();
  }

  lemma Facts317()
    ensures BoolAtCase("/1", ["1"], 0, 0, "1", Ok(true))
  {
    Path_1();
    Text317();
  }

  lemma Facts318()
    ensures BoolAtCase("/t", ["t"], 0, 0, "t", Ok(true))
  {
    Path_t();
    Text318();
  }

  lemma Facts319()
    ensures BoolAtCase("/T", ["T"], 0, 0, "T", Ok(true))
  {
    Path_T();
    Text319();
  }

  lemma Facts320()
    ensures BoolAtCase("/true", ["true"], 0, 0, "true", Ok(true))
  {
    Path_true();
    Text320();
  }

  lemma Facts321()
    ensures BoolAtCase("/TRUE", ["TRUE"], 0, 0, "TRUE", Ok(true))
  {
    Path_TRUE();
    Text321();
  }

  lemma Facts322()
    ensures BoolAtCase("/True", ["True"], 0, 0, "True", Ok(true))
  {
    Path_True();
    Text322();
  }

  lemma Facts323()
    ensures BoolAtCase("/0", ["0"], 0, 0, "0", Ok(false))
  {
    Path_0();
    Text323();
  }

  lemma Facts324()
    ensures BoolAtCase("/f", ["f"], 0, 0, "f", Ok(false))
  {
    Path_f();
    Text324();
  }

  lemma Facts325()
    ensures BoolAtCase("/F", ["F"], 0, 0, "F", Ok(false))
  {
    Path_F();
    Text325();
  }

  lemma Facts326()
    ensures BoolAtCase("/F", ["F"], -1, 0, "F", Ok(false))
  {
    Path_F();
    Text326();
  }

  lemma Facts327()
    ensures BoolAtCase("/false", ["false"], 0, 0, "false", Ok(false))
  {
    Path_false();
    Text327();
  }

  lemma Facts328()
    ensures BoolAtCase("/FALSE", ["FALSE"], 0, 0, "FALSE", Ok(false))
  {
    Path_FALSE();
    Text328();
  }

  lemma Facts329()
    ensures BoolAtCase("/False", ["False"], 0, 0, "False", Ok(false))
  {
    Path_False();
    Text329();
  }

  lemma Facts330()
    ensures BoolOutCase("/True", ["True"], 1)
  {
    Path_True();
    Text330();
  }

  lemma Facts331()
    ensures BoolAtCase("/error", ["error"], 0, 0, "error", Err(ConversionFailed))
  {
    Path_error();
    Text331();
  }

  lemma Facts425()
    ensures SubStringAtCase("/test1/res1/non1", ["test1", "res1", "non1"], "test1", 0, "res1")
  {
    Path_test1_res1_non1();
    Text425();
  }

  lemma Facts426()
    ensures SubStringAtCase("test2/res2/non2", ["test2", "res2", "non2"], "test2", 0, "res2")
  {
    RelPath_test2_res2_non2();
    Text426();
  }

  lemma Facts427()
    ensures SubStringAtCase("/3/33/333", ["3", "33", "333"], "3", 0, "33")
  {
    Path_3_33_333();
    Text427();
  }

  lemma Facts428()
    ensures SubStringAtCase("4/44/444", ["4", "44", "444"], "4", 0, "44")
  {
    RelPath_4_44_444();
    Text428();
  }

  lemma Facts429()
    ensures SubStringAtCase("/5/55/555", ["5", "55", "555"], "55", 1, "555")
  {
    Path_5_55_555();
    Text429();
  }

  lemma Facts430()
    ensures SubStringAtCase("6/66/666", ["6", "66", "666"], "66", 1, "666")
  {
    RelPath_6_66_666();
    Text430();
  }

  lemma Facts431()
    ensures SubStringMissingCase("/77", ["77"], "77")
  {
    Path_77();
    Text431();
  }

  lemma Facts432()
    ensures SubStringMissingCase("/", [""], "88")
  {
    Path_Empty();
    Text432();
  }

  lemma Facts461(kind: IntKind)
    requires !kind.signed
    ensures SubIntAtCase("/t/0.1", ["t", "0.1"], "t", 0, kind, "0.1", 0)
  {
    Path_t_0Dot1();
    Reads_0Dot1(kind.signed);
    SmallFits(0, kind);
    Text461();
  }

  lemma Facts462(kind: IntKind)
    requires !kind.signed
    ensures SubIntAtCase("/2/0.2a", ["2", "0.2a"], "2", 0, kind, "0.2a", 0)
  {
    Path_2_0Dot2a();
    Reads_0Dot2a(kind.signed);
    SmallFits(0, kind);
    Text462();
  }

  lemma Facts463(kind: IntKind)
    requires !kind.signed
    ensures SubIntAtCase("/xx/aaaa1.3", ["xx", "aaaa1.3"], "xx", 0, kind, "aaaa1.3", 1)
  {
    Path_xx_aaaa1Dot3();
    Reads_aaaa1Dot3(kind.signed);
    SmallFits(1, kind);
    Text463();
  }

  lemma Facts464(kind: IntKind)
    requires !kind.signed
    ensures SubIntAtCase("id/4", ["id", "4"], "id", 0, kind, "4", 4)
  {
    RelPath_id_4();
    Reads_4(kind.signed);
    SmallFits(4, kind);
    Text464();
  }

  lemma Facts465(kind: IntKind)
    requires !kind.signed
    ensures SubIntAtCase("/d/5aaaa", ["d", "5aaaa"], "d", 0, kind, "5aaaa", 5)
  {
    Path_d_5aaaa();
    Reads_5aaaa(kind.signed);
    SmallFits(5, kind);
    Text465();
  }

  lemma Facts466(kind: IntKind)
    requires !kind.signed
    ensures SubIntAtCase("/d/e/aaa6aa", ["d", "e", "aaa6aa"], "e", 1, kind, "aaa6aa", 6)
  {
    Path_d_e_aaa6aa();
    Reads_aaa6aa(kind.signed);
    SmallFits(6, kind);
    Text466();
  }

  lemma Facts467(kind: IntKind)
    requires !kind.signed
    ensures SubIntAtCase("/a/g/r/.7.aaaa", ["a", "g", "r", ".7.aaaa"], "r", 2, kind, ".7.aaaa", 0)
  {
    Path_a_g_r_Dot7Dotaaaa();
    Reads_Dot7Dotaaaa(kind.signed);
    SmallFits(0, kind);
    Text467();
  }

  lemma Facts468(kind: IntKind)
    requires !kind.signed
    ensures SubIntAtCase("/g/.8aa/gf/4", ["g", ".8aa", "gf", "4"], "g", 0, kind, ".8aa", 0)
  {
    Path_g_Dot8aa_gf_4();
    Reads_Dot8aa(kind.signed);
    SmallFits(0, kind);
    Text468();
  }

  lemma Facts469(kind: IntKind)
    requires !kind.signed
    ensures SubIntAtCase("/x/-9", ["x", "-9"], "x", 0, kind, "-9", 9)
  {
    Path_x_Dash9();
    Reads_Dash9(kind.signed);
    SmallFits(9, kind);
    Text469();
  }

  lemma Facts470(kind: IntKind)
    requires !kind.signed
    ensures SubIntAtCase("/w/rr/10-", ["w", "rr", "10-"], "rr", 1, kind, "10-", 10)
  {
    Path_w_rr_10Dash();
    Reads_10Dash(kind.signed);
    SmallFits(10, kind);
    Text470();
  }

  lemma Facts471(kind: IntKind)
    requires !kind.signed
    ensures SubIntAtCase("/h/3.14e+11", ["h", "3.14e+11"], "h", 0, kind, "3.14e+11", 3)
  {
    Path_h_3Dot14ePlus11();
    Reads_3Dot14ePlus11(kind.signed);
    SmallFits(3, kind);
    Text471();
  }

  lemma Facts472(kind: IntKind)
    requires !kind.signed
    ensures SubIntAtCase("/y/3.14e.+12", ["y", "3.14e.+12"], "y", 0, kind, "3.14e.+12", 3)
  {
    Path_y_3Dot14eDotPlus12();
    Reads_3Dot14eDotPlus12(kind.signed);
    SmallFits(3, kind);
    Text472();
  }

  lemma Facts473(kind: IntKind)
    requires !kind.signed
    ensures SubIntAtCase("/yy/3.14e+.13", ["yy", "3.14e+.13"], "yy", 0, kind, "3.14e+.13", 3)
  {
    Path_yy_3Dot14ePlusDot13();
    Reads_3Dot14ePlusDot13(kind.signed);
    SmallFits(3, kind);
    Text473();
  }

  lemma Facts474(kind: IntKind)
    requires !kind.signed
    ensures SubIntAtCase("/hh/s/3.14e+.13", ["hh", "s", "3.14e+.13"], "s", 1, kind, "3.14e+.13", 3)
  {
    Path_hh_s_3Dot14ePlusDot13();
    Reads_3Dot14ePlusDot13(kind.signed);
    SmallFits(3, kind);
    Text474();
  }

  lemma Facts475(kind: IntKind)
    requires !kind.signed
    ensures SubIntFailsCase("/g/.", ["g", "."], "g", 0, kind, ".")
  {
    Path_g_Dot();
    Reads_Dot(kind.signed);
    Text475();
  }

  lemma Facts476(kind: IntKind)
    requires !kind.signed
    ensures SubIntFailsCase("/j/error", ["j", "error"], "j", 0, kind, "error")
  {
    Path_j_error();
    Reads_error(kind.signed);
    Text476();
  }

  lemma Facts477(kind: IntKind)
    requires !kind.signed
    ensures SubIntMissingCase("/jj", ["jj"], "j", kind)
  {
    Path_jj();
    Text477();
  }

  lemma Facts570()
    ensures SubIntAtCase([Delim] + "k" + [Delim] + FormatDecimal(0xFFFF_FFFF_FFFF_FFFF), ["k", FormatDecimal(0xFFFF_FFFF_FFFF_FFFF)], "k", 0, Uint64, FormatDecimal(0xFFFF_FFFF_FFFF_FFFF), 0xFFFF_FFFF_FFFF_FFFF)
  {
    KeyDecimalPath("k", 0xFFFF_FFFF_FFFF_FFFF);
    ReadsDecimal(0xFFFF_FFFF_FFFF_FFFF, false);
    Uint64MaxFits();
    Text570();
  }

  lemma Facts589(kind: IntKind)
    requires kind.signed
    ensures SubIntAtCase("/t/0.1", ["t", "0.1"], "t", 0, kind, "0.1", 0)
  {
    Path_t_0Dot1();
    Reads_0Dot1(kind.signed);
    SmallFits(0, kind);
    Text589();
  }

  lemma Facts590(kind: IntKind)
    requires kind.signed
    ensures SubIntAtCase("/2/0.2a", ["2", "0.2a"], "2", 0, kind, "0.2a", 0)
  {
    Path_2_0Dot2a();
    Reads_0Dot2a(kind.signed);
    SmallFits(0, kind);
    Text590();
  }

  lemma Facts591(kind: IntKind)
    requires kind.signed
    ensures SubIntAtCase("/xx/aaaa1.3", ["xx", "aaaa1.3"], "xx", 0, kind, "aaaa1.3", 1)
  {
    Path_xx_aaaa1Dot3();
    Reads_aaaa1Dot3(kind.signed);
    SmallFits(1, kind);
    Text591();
  }

  lemma Facts592(kind: IntKind)
    requires kind.signed
    ensures SubIntAtCase("id/4", ["id", "4"], "id", 0, kind, "4", 4)
  {
    RelPath_id_4();
    Reads_4(kind.signed);
    SmallFits(4, kind);
    Text592();
  }

  lemma Facts593(kind: IntKind)
    requires kind.signed
    ensures SubIntAtCase("/d/5aaaa", ["d", "5aaaa"], "d", 0, kind, "5aaaa", 5)
  {
    Path_d_5aaaa();
    Reads_5aaaa(kind.signed);
    SmallFits(5, kind);
    Text593();
  }

  lemma Facts594(kind: IntKind)
    requires kind.signed
    ensures SubIntAtCase("/d/e/aaa6aa", ["d", "e", "aaa6aa"], "e", 1, kind, "aaa6aa", 6)
  {
    Path_d_e_aaa6aa();
    Reads_aaa6aa(kind.signed);
    SmallFits(6, kind);
    Text594();
  }

  lemma Facts595(kind: IntKind)
    requires kind.signed
    ensures SubIntAtCase("/a/g/r/.7.aaaa", ["a", "g", "r", ".7.aaaa"], "r", 2, kind, ".7.aaaa", 0)
  {
    Path_a_g_r_Dot7Dotaaaa();
    Reads_Dot7Dotaaaa(kind.signed);
    SmallFits(0, kind);
    Text595();
  }

  lemma Facts596(kind: IntKind)
    requires kind.signed
    ensures SubIntAtCase("/g/.8aa/gf/4", ["g", ".8aa", "gf", "4"], "g", 0, kind, ".8aa", 0)
  {
    Path_g_Dot8aa_gf_4();
    Reads_Dot8aa(kind.signed);
    SmallFits(0, kind);
    Text596();
  }

  lemma Facts597(kind: IntKind)
    requires kind.signed
    ensures SubIntAtCase("/x/-9", ["x", "-9"], "x", 0, kind, "-9", -9)
  {
    Path_x_Dash9();
    Reads_Dash9(kind.signed);
    SmallFits(-9, kind);
    Text597();
  }

  lemma Facts598(kind: IntKind)
    requires kind.signed
    ensures SubIntAtCase("/w/rr/10-", ["w", "rr", "10-"], "rr", 1, kind, "10-", 10)
  {
    Path_w_rr_10Dash();
    Reads_10Dash(kind.signed);
    SmallFits(10, kind);
    Text598();
  }

  lemma Facts599(kind: IntKind)
    requires kind.signed
    ensures SubIntAtCase("/h/3.14e+11", ["h", "3.14e+11"], "h", 0, kind, "3.14e+11", 3)
  {
    Path_h_3Dot14ePlus11();
    Reads_3Dot14ePlus11(kind.signed);
    SmallFits(3, kind);
    Text599();
  }

  lemma Facts600(kind: IntKind)
    requires kind.signed
    ensures SubIntAtCase("/y/3.14e.+12", ["y", "3.14e.+12"], "y", 0, kind, "3.14e.+12", 3)
  {
    Path_y_3Dot14eDotPlus12();
    Reads_3Dot14eDotPlus12(kind.signed);
    SmallFits(3, kind);
    Text600();
  }

  lemma Facts601(kind: IntKind)
    requires kind.signed
    ensures SubIntAtCase("/yy/3.14e+.13", ["yy", "3.14e+.13"], "yy", 0, kind, "3.14e+.13", 3)
  {
    Path_yy_3Dot14ePlusDot13();
    Reads_3Dot14ePlusDot13(kind.signed);
    SmallFits(3, kind);
    Text601();
  }

  lemma Facts602(kind: IntKind)
    requires kind.signed
    ensures SubIntAtCase("/hh/s/3.14e+.13", ["hh", "s", "3.14e+.13"], "s", 1, kind, "3.14e+.13", 3)
  {
    Path_hh_s_3Dot14ePlusDot13();
    Reads_3Dot14ePlusDot13(kind.signed);
    SmallFits(3, kind);
    Text602();
  }

  lemma Facts603(kind: IntKind)
    requires kind.signed
    ensures SubIntFailsCase("/g/.", ["g", "."], "g", 0, kind, ".")
  {
    Path_g_Dot();
    Reads_Dot(kind.signed);
    Text603();
  }

  lemma Facts604(kind: IntKind)
    requires kind.signed
    ensures SubIntFailsCase("/j/error", ["j", "error"], "j", 0, kind, "error")
  {
    Path_j_error();
    Reads_error(kind.signed);
    Text604();
  }

  lemma Facts605(kind: IntKind)
    requires kind.signed
    ensures SubIntMissingCase("/jj", ["jj"], "j", kind)
  {
    Path_jj();
    Text605();
  }

  lemma Facts606(kind: IntKind)
    requires kind.signed
    ensures SubIntFailsCase([Delim] + "k" + [Delim] + FormatDecimal(12414143242534534346456456457457456346756868686524234), ["k", FormatDecimal(12414143242534534346456456457457456346756868686524234)], "k", 0, kind, FormatDecimal(12414143242534534346456456457457456346756868686524234))
  {
    KeyDecimalPath("k", 12414143242534534346456456457457456346756868686524234);
    ReadsDecimal(12414143242534534346456456457457456346756868686524234, kind.signed);
    TooBigForSigned(12414143242534534346456456457457456346756868686524234, kind);
    Text606();
  }

  lemma Facts707()
    ensures SubBoolAtCase("/a/1", ["a", "1"], "a", 0, "1", Ok(true))
  {
    Path_a_1();
    Text707();
  }

  lemma Facts708()
    ensures SubBoolAtCase("/a/b/t", ["a", "b", "t"], "b", 1, "t", Ok(true))
  {
    Path_a_b_t();
    Text708();
  }

  lemma Facts709()
    ensures SubBoolAtCase("/c/T", ["c", "T"], "c", 0, "T", Ok(true))
  {
    Path_c_T();
    Text709();
  }

  lemma Facts710()
    ensures SubBoolAtCase("/3/true", ["3", "true"], "3", 0, "true", Ok(true))
  {
    Path_3_true();
    Text710();
  }

  lemma Facts711()
    ensures SubBoolAtCase("/4/44/TRUE", ["4", "44", "TRUE"], "44", 1, "TRUE", Ok(true))
  {
    Path_4_44_TRUE();
    Text711();
  }

  lemma Facts712()
    ensures SubBoolAtCase("/h/5/True/5", ["h", "5", "True", "5"], "5", 1, "True", Ok(true))
  {
    Path_h_5_True_5();
    Text712();
  }

  lemma Facts713()
    ensures SubBoolAtCase("/0/0", ["0", "0"], "0", 0, "0", Ok(false))
  {
    Path_0_0();
    Text713();
  }

  lemma Facts714()
    ensures SubBoolAtCase("/h/f", ["h", "f"], "h", 0, "f", Ok(false))
  {
    Path_h_f();
    Text714();
  }

  lemma Facts715()
    ensures SubBoolAtCase("/F/F", ["F", "F"], "F", 0, "F", Ok(false))
  {
    Path_F_F();
    Text715();
  }

  lemma Facts716()
    ensures SubBoolAtCase("/g/F", ["g", "F"], "g", 0, "F", Ok(false))
  {
    Path_g_F();
    Text716();
  }

  lemma Facts717()
    ensures SubBoolAtCase("/j/false", ["j", "false"], "j", 0, "false", Ok(false))
  {
    Path_j_false();
    Text717();
  }

  lemma Facts718()
    ensures SubBoolAtCase("/k/FALSE", ["k", "FALSE"], "k", 0, "FALSE", Ok(false))
  {
    Path_k_FALSE();
    Text718();
  }

  lemma Facts719()
    ensures SubBoolAtCase("/l/False", ["l", "False"], "l", 0, "False", Ok(false))
  {
    Path_l_False();
    Text719();
  }

  lemma Facts720()
    ensures SubBoolMissingCase("/True", ["True"], "nx")
  {
    Path_True();
    Text720();
  }

  lemma Facts721()
    ensures SubBoolAtCase("/gg/error", ["gg", "error"], "gg", 0, "error", Err(ConversionFailed))
  {
    Path_gg_error();
    Text721();
  }

  lemma Facts813()
    ensures SpanFromRootCase("/test1", ["test1"], 0, 0, 1, ["test1"], "/test1")
  {
    Path_test1();
    Text813();
  }

  lemma Facts814()
    ensures SpanFromRootCase("/test1", ["test1"], 0, 1, 1, ["test1"], "/test1")
  {
    Path_test1();
    Text814();
  }

  lemma Facts815()
    ensures SpanFromRootCase("/test1/test-2", ["test1", "test-2"], 0, 1, 1, ["test1"], "/test1")
  {
    Path_test1_testDash2();
    Text815();
  }

  lemma Facts816()
    ensures SpanFromInnerCase("/test1/test-2/test_3/", ["test1", "test-2", "test_3", ""], 1, 2, 1, 2, ["test-2"], "/test-2")
  {
    Path_test1_testDash2_testLow3_Empty();
    Text816();
  }

  lemma Facts817()
    ensures SpanFromStartCase("test4/t4", ["test4", "t4"], 0, 0, 2, ["test4", "t4"], "test4/t4")
  {
    RelPath_test4_t4();
    Text817();
  }

  lemma Facts818()
    ensures SpanFromStartCase("t444/t4", ["t444", "t4"], 0, 1, 1, ["t444"], "t444")
  {
    RelPath_t444_t4();
    Text818();
  }

  lemma Facts819()
    ensures SpanFromRootCase("//test5", ["", "test5"], 0, 1, 1, [""], "/")
  {
    Path_Empty_test5();
    Text819();
  }

  lemma Facts820()
    ensures SpanFromRootCase("/test6//", ["test6", "", ""], 0, 1, 1, ["test6"], "/test6")
  {
    Path_test6_Empty_Empty();
    Text820();
  }

  lemma Facts821()
    ensures SpanFromRootCase("/t6//", ["t6", "", ""], 0, 2, 2, ["t6", ""], "/t6/")
  {
    Path_t6_Empty_Empty();
    Text821();
  }

  lemma Facts822()
    ensures SpanFromRootCase("/66//", ["66", "", ""], 0, 3, 3, ["66", "", ""], "/66//")
  {
    Path_66_Empty_Empty();
    Text822();
  }

  lemma Facts823()
    ensures SpanOutCase("/test7", ["test7"], 1, 2)
  {
    Path_test7();
    Text823();
  }

  lemma Facts824()
    ensures SpanEmptyCase("/test8", ["test8"], 0, -1, 0)
  {
    Path_test8();
    Text824();
  }

  lemma Facts825()
    ensures SpanEmptyCase("/t/9", ["t", "9"], 1, 1, 1)
  {
    Path_t_9();
    Text825();
  }

  lemma Facts826()
    ensures SpanFromRootCase("/", [""], 0, 0, 1, [""], "/")
  {
    Path_Empty();
    Text826();
  }

  lemma Facts827()
    ensures SpanOutCase("/", [""], 1, 1)
  {
    Path_Empty();
    Text827();
  }

  lemma Facts828()
    ensures SpanEmptyCase("/", [""], -1, -1, 0)
  {
    Path_Empty();
    Text828();
  }

  lemma Facts829()
    ensures SpanEmptyCase("/", [""], 0, -1, 0)
  {
    Path_Empty();
    Text829();
  }

  lemma Facts830()
    ensures SpanFromRootCase("/", [""], -1, 0, 1, [""], "/")
  {
    Path_Empty();
    Text830();
  }

  lemma Facts831()
    ensures SpanFromRootCase("/test1", ["test1"], -1, 0, 1, ["test1"], "/test1")
  {
    Path_test1();
    Text831();
  }

  lemma Facts832()
    ensures SpanFromRootCase("/test1/test-2", ["test1", "test-2"], 0, -1, 1, ["test1"], "/test1")
  {
    Path_test1_testDash2();
    Text832();
  }

  lemma Facts833()
    ensures SpanFromRootCase("/test1/test-2/test_3", ["test1", "test-2", "test_3"], -3, -1, 2, ["test1", "test-2"], "/test1/test-2")
  {
    Path_test1_testDash2_testLow3();
    Text833();
  }

  lemma Facts834()
    ensures SpanEmptyCase("/test11/test-12", ["test11", "test-12"], -1, -1, 1)
  {
    Path_test11_testDash12();
    Text834();
  }

  lemma Facts835()
    ensures SpanOutCase("/test11/test-12", ["test11", "test-12"], -1, -3)
  {
    Path_test11_testDash12();
    Text835();
  }

  lemma Facts836()
    ensures SpanFromInnerCase("test4/t4/", ["test4", "t4", ""], -2, -1, 1, 2, ["t4"], "/t4")
  {
    RelPath_test4_t4_Empty();
    Text836();
  }

  lemma Facts837()
    ensures SpanOutCase("/test5/test-6/test_7", ["test5", "test-6", "test_7"], -1, -3)
  {
    Path_test5_testDash6_testLow7();
    Text837();
  }

  lemma Facts838()
    ensures SpanOutCase("/test7", ["test7"], -3, 0)
  {
    Path_test7();
    Text838();
  }

  lemma Facts868()
    ensures SubSpanAtCase("/test1/res1/non1", ["test1", "res1", "non1"], 3, "test1", 1, 0, 1, 1, ["res1"], "/res1")
  {
    Path_test1_res1_non1();
    Text868();
  }

  lemma Facts869()
    ensures SubSpanAtCase("test2/res2/non2", ["test2", "res2", "non2"], 3, "test2", 2, 0, 1, 2, ["res2", "non2"], "/res2/non2")
  {
    RelPath_test2_res2_non2();
    Text869();
  }

  lemma Facts870()
    ensures SubSpanAtCase("/3/33/333", ["3", "33", "333"], 3, "3", 1, 0, 1, 1, ["33"], "/33")
  {
    Path_3_33_333();
    Text870();
  }

  lemma Facts871()
    ensures SubSpanAtCase("4/44/444", ["4", "44", "444"], 3, "4", 2, 0, 1, 2, ["44", "444"], "/44/444")
  {
    RelPath_4_44_444();
    Text871();
  }

  lemma Facts872()
    ensures SubSpanAtCase("/5/55/555", ["5", "55", "555"], 3, "55", 1, 1, 2, 1, ["555"], "/555")
  {
    Path_5_55_555();
    Text872();
  }

  lemma Facts873()
    ensures SubSpanOutCase("6/66/666", ["6", "66", "666"], "66", 2, 1)
  {
    RelPath_6_66_666();
    Text873();
  }

  lemma Facts874()
    ensures SubSpanMissingCase("/77", ["77"], "77", 1)
  {
    Path_77();
    Text874();
  }

  lemma Facts875()
    ensures SubSpanMissingCase("/", [""], "88", 1)
  {
    Path_Empty();
    Text875();
  }

  lemma Facts876()
    ensures SubSpanAtCase("/t1/res1/non1/xtra", ["t1", "res1", "non1", "xtra"], 4, "t1", -2, 0, 1, 1, ["res1"], "/res1")
  {
    Path_t1_res1_non1_xtra();
    Text876();
  }

  lemma Facts877()
    ensures SubSpanAtCase("t2/res2/non2/xtra", ["t2", "res2", "non2", "xtra"], 4, "t2", 0, 0, 1, 3, ["res2", "non2", "xtra"], "/res2/non2/xtra")
  {
    RelPath_t2_res2_non2_xtra();
    Text877();
  }

  lemma Facts878()
    ensures SubSpanAtCase("/3/33/333/303", ["3", "33", "333", "303"], 4, "3", -1, 0, 1, 2, ["33", "333"], "/33/333")
  {
    Path_3_33_333_303();
    Text878();
  }

  lemma Facts879()
    ensures SubSpanMissingCase("/77", ["77"], "77", -1)
  {
    Path_77();
    Text879();
  }

  lemma Facts880()
    ensures SubSpanMissingCase("/", [""], "88", 0)
  {
    Path_Empty();
    Text880();
  }

  lemma Path_test1()
    ensures Segments("/test1") == ["test1"]
  {
    Segments1("/test1", "test1");
  }

  lemma Path_test1_testDash2()
    ensures Segments("/test1/test-2") == ["test1", "test-2"]
  {
    Segments2("/test1/test-2", "test1", "test-2");
  }

  lemma Path_test1_testDash2_testLow3_Empty()
    ensures Segments("/test1/test-2/test_3/") == ["test1", "test-2", "test_3", ""]
  {
    Segments4("/test1/test-2/test_3/", "test1", "test-2", "test_3", "");
  }

  lemma RelPath_test4_t4()
    ensures Segments("test4/t4") == ["test4", "t4"]
  {
    Segments2("test4/t4", "test4", "t4");
  }

  lemma Path_Empty_test5()
    ensures Segments("//test5") == ["", "test5"]
  {
    Segments2("//test5", "", "test5");
  }

  lemma Path_test6_Empty_Empty()
    ensures Segments("/test6//") == ["test6", "", ""]
  {
    Segments3("/test6//", "test6", "", "");
  }

  lemma Path_test7()
    ensures Segments("/test7") == ["test7"]
  {
    Segments1("/test7", "test7");
  }

  lemma Path_Empty_test8()
    ensures Segments("//test8") == ["", "test8"]
  {
    Segments2("//test8", "", "test8");
  }

  lemma Path_Empty()
    ensures Segments("/") == [""]
  {
    Segments1("/", "");
  }

  lemma Path_test1_testDash2_testLow3()
    ensures Segments("/test1/test-2/test_3") == ["test1", "test-2", "test_3"]
  {
    Segments3("/test1/test-2/test_3", "test1", "test-2", "test_3");
  }

  lemma RelPath_test4_t4_Empty()
    ensures Segments("test4/t4/") == ["test4", "t4", ""]
  {
    Segments3("test4/t4/", "test4", "t4", "");
  }

  lemma Path_0Dot1()
    ensures Segments("/0.1") == ["0.1"]
  {
    Segments1("/0.1", "0.1");
  }

  lemma Path_0Dot2a()
    ensures Segments("/0.2a") == ["0.2a"]
  {
    Segments1("/0.2a", "0.2a");
  }

  lemma Path_aaaa1Dot3()
    ensures Segments("/aaaa1.3") == ["aaaa1.3"]
  {
    Segments1("/aaaa1.3", "aaaa1.3");
  }

  lemma Path_4()
    ensures Segments("/4") == ["4"]
  {
    Segments1("/4", "4");
  }

  lemma Path_5aaaa()
    ensures Segments("/5aaaa") == ["5aaaa"]
  {
    Segments1("/5aaaa", "5aaaa");
  }

  lemma Path_aaa6aa()
    ensures Segments("/aaa6aa") == ["aaa6aa"]
  {
    Segments1("/aaa6aa", "aaa6aa");
  }

  lemma Path_Dot7Dotaaaa()
    ensures Segments("/.7.aaaa") == [".7.aaaa"]
  {
    Segments1("/.7.aaaa", ".7.aaaa");
  }

  lemma Path_Dot8aa()
    ensures Segments("/.8aa") == [".8aa"]
  {
    Segments1("/.8aa", ".8aa");
  }

  lemma Path_Dash9()
    ensures Segments("/-9") == ["-9"]
  {
    Segments1("/-9", "-9");
  }

  lemma Path_10Dash()
    ensures Segments("/10-") == ["10-"]
  {
    Segments1("/10-", "10-");
  }

  lemma Path_3Dot14ePlus11()
    ensures Segments("/3.14e+11") == ["3.14e+11"]
  {
    Segments1("/3.14e+11", "3.14e+11");
  }

  lemma Path_3Dot14eDotPlus12()
    ensures Segments("/3.14e.+12") == ["3.14e.+12"]
  {
    Segments1("/3.14e.+12", "3.14e.+12");
  }

  lemma Path_3Dot14ePlusDot13()
    ensures Segments("/3.14e+.13") == ["3.14e+.13"]
  {
    Segments1("/3.14e+.13", "3.14e+.13");
  }

  lemma Path_8()
    ensures Segments("/8") == ["8"]
  {
    Segments1("/8", "8");
  }

  lemma Path_Dot()
    ensures Segments("/.") == ["."]
  {
    Segments1("/.", ".");
  }

  lemma Path_error()
    ensures Segments("/error") == ["error"]
  {
    Segments1("/error", "error");
  }

  lemma Path_1()
    ensures Segments("/1") == ["1"]
  {
    Segments1("/1", "1");
  }

  lemma Path_t()
    ensures Segments("/t") == ["t"]
  {
    Segments1("/t", "t");
  }

  lemma Path_T()
    ensures Segments("/T") == ["T"]
  {
    Segments1("/T", "T");
  }

  lemma Path_true()
    ensures Segments("/true") == ["true"]
  {
    Segments1("/true", "true");
  }

  lemma Path_TRUE()
    ensures Segments("/TRUE") == ["TRUE"]
  {
    Segments1("/TRUE", "TRUE");
  }

  lemma Path_True()
    ensures Segments("/True") == ["True"]
  {
    Segments1("/True", "True");
  }

  lemma Path_0()
    ensures Segments("/0") == ["0"]
  {
    Segments1("/0", "0");
  }

  lemma Path_f()
    ensures Segments("/f") == ["f"]
  {
    Segments1("/f", "f");
  }

  lemma Path_F()
    ensures Segments("/F") == ["F"]
  {
    Segments1("/F", "F");
  }

  lemma Path_false()
    ensures Segments("/false") == ["false"]
  {
    Segments1("/false", "false");
  }

  lemma Path_FALSE()
    ensures Segments("/FALSE") == ["FALSE"]
  {
    Segments1("/FALSE", "FALSE");
  }

  lemma Path_False()
    ensures Segments("/False") == ["False"]
  {
    Segments1("/False", "False");
  }

  lemma Path_test1_res1_non1()
    ensures Segments("/test1/res1/non1") == ["test1", "res1", "non1"]
  {
    Segments3("/test1/res1/non1", "test1", "res1", "non1");
  }

  lemma RelPath_test2_res2_non2()
    ensures Segments("test2/res2/non2") == ["test2", "res2", "non2"]
  {
    Segments3("test2/res2/non2", "test2", "res2", "non2");
  }

  lemma Path_3_33_333()
    ensures Segments("/3/33/333") == ["3", "33", "333"]
  {
    Segments3("/3/33/333", "3", "33", "333");
  }

  lemma RelPath_4_44_444()
    ensures Segments("4/44/444") == ["4", "44", "444"]
  {
    Segments3("4/44/444", "4", "44", "444");
  }

  lemma Path_5_55_555()
    ensures Segments("/5/55/555") == ["5", "55", "555"]
  {
    Segments3("/5/55/555", "5", "55", "555");
  }

  lemma RelPath_6_66_666()
    ensures Segments("6/66/666") == ["6", "66", "666"]
  {
    Segments3("6/66/666", "6", "66", "666");
  }

  lemma Path_77()
    ensures Segments("/77") == ["77"]
  {
    Segments1("/77", "77");
  }

  lemma Path_t_0Dot1()
    ensures Segments("/t/0.1") == ["t", "0.1"]
  {
    Segments2("/t/0.1", "t", "0.1");
  }

  lemma Path_2_0Dot2a()
    ensures Segments("/2/0.2a") == ["2", "0.2a"]
  {
    Segments2("/2/0.2a", "2", "0.2a");
  }

  lemma Path_xx_aaaa1Dot3()
    ensures Segments("/xx/aaaa1.3") == ["xx", "aaaa1.3"]
  {
    Segments2("/xx/aaaa1.3", "xx", "aaaa1.3");
  }

  lemma RelPath_id_4()
    ensures Segments("id/4") == ["id", "4"]
  {
    Segments2("id/4", "id", "4");
  }

  lemma Path_d_5aaaa()
    ensures Segments("/d/5aaaa") == ["d", "5aaaa"]
  {
    Segments2("/d/5aaaa", "d", "5aaaa");
  }

  lemma Path_d_e_aaa6aa()
    ensures Segments("/d/e/aaa6aa") == ["d", "e", "aaa6aa"]
  {
    Segments3("/d/e/aaa6aa", "d", "e", "aaa6aa");
  }

  lemma Path_a_g_r_Dot7Dotaaaa()
    ensures Segments("/a/g/r/.7.aaaa") == ["a", "g", "r", ".7.aaaa"]
  {
    Segments4("/a/g/r/.7.aaaa", "a", "g", "r", ".7.aaaa");
  }

  lemma Path_g_Dot8aa_gf_4()
    ensures Segments("/g/.8aa/gf/4") == ["g", ".8aa", "gf", "4"]
  {
    Segments4("/g/.8aa/gf/4", "g", ".8aa", "gf", "4");
  }

  lemma Path_x_Dash9()
    ensures Segments("/x/-9") == ["x", "-9"]
  {
    Segments2("/x/-9", "x", "-9");
  }

  lemma Path_w_rr_10Dash()
    ensures Segments("/w/rr/10-") == ["w", "rr", "10-"]
  {
    Segments3("/w/rr/10-", "w", "rr", "10-");
  }

  lemma Path_h_3Dot14ePlus11()
    ensures Segments("/h/3.14e+11") == ["h", "3.14e+11"]
  {
    Segments2("/h/3.14e+11", "h", "3.14e+11");
  }

  lemma Path_y_3Dot14eDotPlus12()
    ensures Segments("/y/3.14e.+12") == ["y", "3.14e.+12"]
  {
    Segments2("/y/3.14e.+12", "y", "3.14e.+12");
  }

  lemma Path_yy_3Dot14ePlusDot13()
    ensures Segments("/yy/3.14e+.13") == ["yy", "3.14e+.13"]
  {
    Segments2("/yy/3.14e+.13", "yy", "3.14e+.13");
  }

  lemma Path_hh_s_3Dot14ePlusDot13()
    ensures Segments("/hh/s/3.14e+.13") == ["hh", "s", "3.14e+.13"]
  {
    Segments3("/hh/s/3.14e+.13", "hh", "s", "3.14e+.13");
  }

  lemma Path_g_Dot()
    ensures Segments("/g/.") == ["g", "."]
  {
    Segments2("/g/.", "g", ".");
  }

  lemma Path_j_error()
    ensures Segments("/j/error") == ["j", "error"]
  {
    Segments2("/j/error", "j", "error");
  }

  lemma Path_jj()
    ensures Segments("/jj") == ["jj"]
  {
    Segments1("/jj", "jj");
  }

  lemma Path_a_1()
    ensures Segments("/a/1") == ["a", "1"]
  {
    Segments2("/a/1", "a", "1");
  }

  lemma Path_a_b_t()
    ensures Segments("/a/b/t") == ["a", "b", "t"]
  {
    Segments3("/a/b/t", "a", "b", "t");
  }

  lemma Path_c_T()
    ensures Segments("/c/T") == ["c", "T"]
  {
    Segments2("/c/T", "c", "T");
  }

  lemma Path_3_true()
    ensures Segments("/3/true") == ["3", "true"]
  {
    Segments2("/3/true", "3", "true");
  }

  lemma Path_4_44_TRUE()
    ensures Segments("/4/44/TRUE") == ["4", "44", "TRUE"]
  {
    Segments3("/4/44/TRUE", "4", "44", "TRUE");
  }

  lemma Path_h_5_True_5()
    ensures Segments("/h/5/True/5") == ["h", "5", "True", "5"]
  {
    Segments4("/h/5/True/5", "h", "5", "True", "5");
  }

  lemma Path_0_0()
    ensures Segments("/0/0") == ["0", "0"]
  {
    Segments2("/0/0", "0", "0");
  }

  lemma Path_h_f()
    ensures Segments("/h/f") == ["h", "f"]
  {
    Segments2("/h/f", "h", "f");
  }

  lemma Path_F_F()
    ensures Segments("/F/F") == ["F", "F"]
  {
    Segments2("/F/F", "F", "F");
  }

  lemma Path_g_F()
    ensures Segments("/g/F") == ["g", "F"]
  {
    Segments2("/g/F", "g", "F");
  }

  lemma Path_j_false()
    ensures Segments("/j/false") == ["j", "false"]
  {
    Segments2("/j/false", "j", "false");
  }

  lemma Path_k_FALSE()
    ensures Segments("/k/FALSE") == ["k", "FALSE"]
  {
    Segments2("/k/FALSE", "k", "FALSE");
  }

  lemma Path_l_False()
    ensures Segments("/l/False") == ["l", "False"]
  {
    Segments2("/l/False", "l", "False");
  }

  lemma Path_gg_error()
    ensures Segments("/gg/error") == ["gg", "error"]
  {
    Segments2("/gg/error", "gg", "error");
  }

  lemma RelPath_t444_t4()
    ensures Segments("t444/t4") == ["t444", "t4"]
  {
    Segments2("t444/t4", "t444", "t4");
  }

  lemma Path_t6_Empty_Empty()
    ensures Segments("/t6//") == ["t6", "", ""]
  {
    Segments3("/t6//", "t6", "", "");
  }

  lemma Path_66_Empty_Empty()
    ensures Segments("/66//") == ["66", "", ""]
  {
    Segments3("/66//", "66", "", "");
  }

  lemma Path_test8()
    ensures Segments("/test8") == ["test8"]
  {
    Segments1("/test8", "test8");
  }

  lemma Path_t_9()
    ensures Segments("/t/9") == ["t", "9"]
  {
    Segments2("/t/9", "t", "9");
  }

  lemma Path_test11_testDash12()
    ensures Segments("/test11/test-12") == ["test11", "test-12"]
  {
    Segments2("/test11/test-12", "test11", "test-12");
  }

  lemma Path_test5_testDash6_testLow7()
    ensures Segments("/test5/test-6/test_7") == ["test5", "test-6", "test_7"]
  {
    Segments3("/test5/test-6/test_7", "test5", "test-6", "test_7");
  }

  lemma Path_t1_res1_non1_xtra()
    ensures Segments("/t1/res1/non1/xtra") == ["t1", "res1", "non1", "xtra"]
  {
    Segments4("/t1/res1/non1/xtra", "t1", "res1", "non1", "xtra");
  }

  lemma RelPath_t2_res2_non2_xtra()
    ensures Segments("t2/res2/non2/xtra") == ["t2", "res2", "non2", "xtra"]
  {
    Segments4("t2/res2/non2/xtra", "t2", "res2", "non2", "xtra");
  }

  lemma Path_3_33_333_303()
    ensures Segments("/3/33/333/303") == ["3", "33", "333", "303"]
  {
    Segments4("/3/33/333/303", "3", "33", "333", "303");
  }
}
