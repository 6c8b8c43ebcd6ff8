/**
 * The rows of the library's functional tables (parth_func_test.go), each
 * proved of the model as a lemma named after its line. A row that expects
 * an error is stated with the error the model reports; a table the library
 * runs for several integer widths is stated for every kind of that
 * signedness. Each table lemma gathers the rows of one table.
 */
module Tables {
  import opened Outcomes
  import opened Paths
  import opened Indexer
  import opened Spans
  import opened Coerce
  import opened Typed
  import opened TableFacts
  import opened Rows

  lemma Row22()
    ensures SegmentToString("/test1", 0) == Ok("test1")
  {
    Facts22();
    StringAt("/test1", ["test1"], 0, 0, "test1");
  }

  lemma Row23()
    ensures SegmentToString("/test1/test-2", 1) == Ok("test-2")
  {
    Facts23();
    StringAt("/test1/test-2", ["test1", "test-2"], 1, 1, "test-2");
  }

  lemma Row24()
    ensures SegmentToString("/test1/test-2/test_3/", 2) == Ok("test_3")
  {
    Facts24();
    StringAt("/test1/test-2/test_3/", ["test1", "test-2", "test_3", ""], 2, 2, "test_3");
  }

  lemma Row25()
    ensures SegmentToString("test4/t4", 0) == Ok("test4")
  {
    Facts25();
    StringAt("test4/t4", ["test4", "t4"], 0, 0, "test4");
  }

  lemma Row26()
    ensures SegmentToString("//test5", 1) == Ok("test5")
  {
    Facts26();
    StringAt("//test5", ["", "test5"], 1, 1, "test5");
  }

  lemma Row27()
    ensures SegmentToString("/test6//", 1) == Ok("")
  {
    Facts27();
    StringAt("/test6//", ["test6", "", ""], 1, 1, "");
  }

  lemma Row28()
    ensures SegmentToString("/test7", 3) == Err(OutOfBounds)
  {
    Facts28();
    StringOut("/test7", ["test7"], 3);
  }

  lemma Row29()
    ensures SegmentToString("//test8", 0) == Ok("")
  {
    Facts29();
    StringAt("//test8", ["", "test8"], 0, 0, "");
  }

  lemma Row30()
    ensures SegmentToString("/", 0) == Ok("")
  {
    Facts30();
    StringAt("/", [""], 0, 0, "");
  }

  lemma Row31()
    ensures SegmentToString("/test1", -1) == Ok("test1")
  {
    Facts31();
    StringAt("/test1", ["test1"], -1, 0, "test1");
  }

  lemma Row32()
    ensures SegmentToString("/test1/test-2", -1) == Ok("test-2")
  {
    Facts32();
    StringAt("/test1/test-2", ["test1", "test-2"], -1, 1, "test-2");
  }

  lemma Row33()
    ensures SegmentToString("/test1/test-2", -2) == Ok("test1")
  {
    Facts33();
    StringAt("/test1/test-2", ["test1", "test-2"], -2, 0, "test1");
  }

  lemma Row34()
    ensures SegmentToString("/test1/test-2/test_3", -3) == Ok("test1")
  {
    Facts34();
    StringAt("/test1/test-2/test_3", ["test1", "test-2", "test_3"], -3, 0, "test1");
  }

  lemma Row35()
    ensures SegmentToString("test4/t4/", -1) == Ok("")
  {
    Facts35();
    StringAt("test4/t4/", ["test4", "t4", ""], -1, 2, "");
  }

  lemma Row36()
    ensures SegmentToString("//test5", -1) == Ok("test5")
  {
    Facts36();
    StringAt("//test5", ["", "test5"], -1, 1, "test5");
  }

  lemma Row37()
    ensures SegmentToString("/test6//", -1) == Ok("")
  {
    Facts37();
    StringAt("/test6//", ["test6", "", ""], -1, 2, "");
  }

  lemma Row38()
    ensures SegmentToString("/test7", -3) == Err(OutOfBounds)
  {
    Facts38();
    StringOut("/test7", ["test7"], -3);
  }

  lemma Row39()
    ensures SegmentToString("//test8", -2) == Ok("")
  {
    Facts39();
    StringAt("//test8", ["", "test8"], -2, 0, "");
  }

  lemma Row40()
    ensures SegmentToString("/", -1) == Ok("")
  {
    Facts40();
    StringAt("/", [""], -1, 0, "");
  }

  lemma Row69(kind: IntKind)
    requires !kind.signed
    ensures SegmentToInt("/0.1", 0, kind) == Ok(0)
  {
    Facts69(kind);
    IntAt("/0.1", ["0.1"], 0, 0, kind, "0.1", 0);
  }

  lemma Row70(kind: IntKind)
    requires !kind.signed
    ensures SegmentToInt("/0.2a", 0, kind) == Ok(0)
  {
    Facts70(kind);
    IntAt("/0.2a", ["0.2a"], 0, 0, kind, "0.2a", 0);
  }

  lemma Row71(kind: IntKind)
    requires !kind.signed
    ensures SegmentToInt("/aaaa1.3", 0, kind) == Ok(1)
  {
    Facts71(kind);
    IntAt("/aaaa1.3", ["aaaa1.3"], 0, 0, kind, "aaaa1.3", 1);
  }

  lemma Row72(kind: IntKind)
    requires !kind.signed
    ensures SegmentToInt("/4", 0, kind) == Ok(4)
  {
    Facts72(kind);
    IntAt("/4", ["4"], 0, 0, kind, "4", 4);
  }

  lemma Row73(kind: IntKind)
    requires !kind.signed
    ensures SegmentToInt("/5aaaa", 0, kind) == Ok(5)
  {
    Facts73(kind);
    IntAt("/5aaaa", ["5aaaa"], 0, 0, kind, "5aaaa", 5);
  }

  lemma Row74(kind: IntKind)
    requires !kind.signed
    ensures SegmentToInt("/aaa6aa", 0, kind) == Ok(6)
  {
    Facts74(kind);
    IntAt("/aaa6aa", ["aaa6aa"], 0, 0, kind, "aaa6aa", 6);
  }

  lemma Row75(kind: IntKind)
    requires !kind.signed
    ensures SegmentToInt("/.7.aaaa", 0, kind) == Ok(0)
  {
    Facts75(kind);
    IntAt("/.7.aaaa", [".7.aaaa"], 0, 0, kind, ".7.aaaa", 0);
  }

  lemma Row76(kind: IntKind)
    requires !kind.signed
    ensures SegmentToInt("/.8aa", 0, kind) == Ok(0)
  {
    Facts76(kind);
    IntAt("/.8aa", [".8aa"], 0, 0, kind, ".8aa", 0);
  }

  lemma Row77(kind: IntKind)
    requires !kind.signed
    ensures SegmentToInt("/-9", 0, kind) == Ok(9)
  {
    Facts77(kind);
    IntAt("/-9", ["-9"], 0, 0, kind, "-9", 9);
  }

  lemma Row78(kind: IntKind)
    requires !kind.signed
    ensures SegmentToInt("/-9", -1, kind) == Ok(9)
  {
    Facts78(kind);
    IntAt("/-9", ["-9"], -1, 0, kind, "-9", 9);
  }

  lemma Row79(kind: IntKind)
    requires !kind.signed
    ensures SegmentToInt("/10-", 0, kind) == Ok(10)
  {
    Facts79(kind);
    IntAt("/10-", ["10-"], 0, 0, kind, "10-", 10);
  }

  lemma Row80(kind: IntKind)
    requires !kind.signed
    ensures SegmentToInt("/3.14e+11", 0, kind) == Ok(3)
  {
    Facts80(kind);
    IntAt("/3.14e+11", ["3.14e+11"], 0, 0, kind, "3.14e+11", 3);
  }

  lemma Row81(kind: IntKind)
    requires !kind.signed
    ensures SegmentToInt("/3.14e.+12", 0, kind) == Ok(3)
  {
    Facts81(kind);
    IntAt("/3.14e.+12", ["3.14e.+12"], 0, 0, kind, "3.14e.+12", 3);
  }

  lemma Row82(kind: IntKind)
    requires !kind.signed
    ensures SegmentToInt("/3.14e+.13", 0, kind) == Ok(3)
  {
    Facts82(kind);
    IntAt("/3.14e+.13", ["3.14e+.13"], 0, 0, kind, "3.14e+.13", 3);
  }

  lemma Row83(kind: IntKind)
    requires !kind.signed
    ensures SegmentToInt("/3.14e+.13", -1, kind) == Ok(3)
  {
    Facts83(kind);
    IntAt("/3.14e+.13", ["3.14e+.13"], -1, 0, kind, "3.14e+.13", 3);
  }

  lemma Row84(kind: IntKind)
    requires !kind.signed
    ensures SegmentToInt("/8", 1, kind) == Err(OutOfBounds)
  {
    Facts84(kind);
    IntOut("/8", ["8"], 1, kind);
  }

  lemma Row85(kind: IntKind)
    requires !kind.signed
    ensures SegmentToInt("/.", 0, kind) == Err(ConversionFailed)
  {
    Facts85(kind);
    IntFails("/.", ["."], 0, 0, kind, ".");
  }

  lemma Row86(kind: IntKind)
    requires !kind.signed
    ensures SegmentToInt("/error", 0, kind) == Err(ConversionFailed)
  {
    Facts86(kind);
    IntFails("/error", ["error"], 0, 0, kind, "error");
  }

  lemma Row179()
    ensures SegmentToInt([Delim] + FormatDecimal(0xFFFF_FFFF_FFFF_FFFF), 0, Uint64) == Ok(0xFFFF_FFFF_FFFF_FFFF)
  {
    Facts179();
    IntAt([Delim] + FormatDecimal(0xFFFF_FFFF_FFFF_FFFF), [FormatDecimal(0xFFFF_FFFF_FFFF_FFFF)], 0, 0, Uint64, FormatDecimal(0xFFFF_FFFF_FFFF_FFFF), 0xFFFF_FFFF_FFFF_FFFF);
  }

  lemma Row198(kind: IntKind)
    requires kind.signed
    ensures SegmentToInt("/0.1", 0, kind) == Ok(0)
  {
    Facts198(kind);
    IntAt("/0.1", ["0.1"], 0, 0, kind, "0.1", 0);
  }

  lemma Row199(kind: IntKind)
    requires kind.signed
    ensures SegmentToInt("/0.2a", 0, kind) == Ok(0)
  {
    Facts199(kind);
    IntAt("/0.2a", ["0.2a"], 0, 0, kind, "0.2a", 0);
  }

  lemma Row200(kind: IntKind)
    requires kind.signed
    ensures SegmentToInt("/aaaa1.3", 0, kind) == Ok(1)
  {
    Facts200(kind);
    IntAt("/aaaa1.3", ["aaaa1.3"], 0, 0, kind, "aaaa1.3", 1);
  }

  lemma Row201(kind: IntKind)
    requires kind.signed
    ensures SegmentToInt("/4", 0, kind) == Ok(4)
  {
    Facts201(kind);
    IntAt("/4", ["4"], 0, 0, kind, "4", 4);
  }

  lemma Row202(kind: IntKind)
    requires kind.signed
    ensures SegmentToInt("/5aaaa", 0, kind) == Ok(5)
  {
    Facts202(kind);
    IntAt("/5aaaa", ["5aaaa"], 0, 0, kind, "5aaaa", 5);
  }

  lemma Row203(kind: IntKind)
    requires kind.signed
    ensures SegmentToInt("/aaa6aa", 0, kind) == Ok(6)
  {
    Facts203(kind);
    IntAt("/aaa6aa", ["aaa6aa"], 0, 0, kind, "aaa6aa", 6);
  }

  lemma Row204(kind: IntKind)
    requires kind.signed
    ensures SegmentToInt("/.7.aaaa", 0, kind) == Ok(0)
  {
    Facts204(kind);
    IntAt("/.7.aaaa", [".7.aaaa"], 0, 0, kind, ".7.aaaa", 0);
  }

  lemma Row205(kind: IntKind)
    requires kind.signed
    ensures SegmentToInt("/.8aa", 0, kind) == Ok(0)
  {
    Facts205(kind);
    IntAt("/.8aa", [".8aa"], 0, 0, kind, ".8aa", 0);
  }

  lemma Row206(kind: IntKind)
    requires kind.signed
    ensures SegmentToInt("/-9", 0, kind) == Ok(-9)
  {
    Facts206(kind);
    IntAt("/-9", ["-9"], 0, 0, kind, "-9", -9);
  }

  lemma Row207(kind: IntKind)
    requires kind.signed
    ensures SegmentToInt("/-9", -1, kind) == Ok(-9)
  {
    Facts207(kind);
    IntAt("/-9", ["-9"], -1, 0, kind, "-9", -9);
  }

  lemma Row208(kind: IntKind)
    requires kind.signed
    ensures SegmentToInt("/10-", 0, kind) == Ok(10)
  {
    Facts208(kind);
    IntAt("/10-", ["10-"], 0, 0, kind, "10-", 10);
  }

  lemma Row209(kind: IntKind)
    requires kind.signed
    ensures SegmentToInt("/3.14e+11", 0, kind) == Ok(3)
  {
    Facts209(kind);
    IntAt("/3.14e+11", ["3.14e+11"], 0, 0, kind, "3.14e+11", 3);
  }

  lemma Row210(kind: IntKind)
    requires kind.signed
    ensures SegmentToInt("/3.14e.+12", 0, kind) == Ok(3)
  {
    Facts210(kind);
    IntAt("/3.14e.+12", ["3.14e.+12"], 0, 0, kind, "3.14e.+12", 3);
  }

  lemma Row211(kind: IntKind)
    requires kind.signed
    ensures SegmentToInt("/3.14e+.13", 0, kind) == Ok(3)
  {
    Facts211(kind);
    IntAt("/3.14e+.13", ["3.14e+.13"], 0, 0, kind, "3.14e+.13", 3);
  }

  lemma Row212(kind: IntKind)
    requires kind.signed
    ensures SegmentToInt("/3.14e+.13", -1, kind) == Ok(3)
  {
    Facts212(kind);
    IntAt("/3.14e+.13", ["3.14e+.13"], -1, 0, kind, "3.14e+.13", 3);
  }

  lemma Row213(kind: IntKind)
    requires kind.signed
    ensures SegmentToInt("/8", 1, kind) == Err(OutOfBounds)
  {
    Facts213(kind);
    IntOut("/8", ["8"], 1, kind);
  }

  lemma Row214(kind: IntKind)
    requires kind.signed
    ensures SegmentToInt("/.", 0, kind) == Err(ConversionFailed)
  {
    Facts214(kind);
    IntFails("/.", ["."], 0, 0, kind, ".");
  }

  lemma Row215(kind: IntKind)
    requires kind.signed
    ensures SegmentToInt("/error", 0, kind) == Err(ConversionFailed)
  {
    Facts215(kind);
    IntFails("/error", ["error"], 0, 0, kind, "error");
  }

  lemma Row216(kind: IntKind)
    requires kind.signed
    ensures SegmentToInt([Delim] + FormatDecimal(0xFFFF_FFFF_FFFF_FFFF), 0, kind) == Err(ConversionFailed)
  {
    Facts216(kind);
    IntFails([Delim] + FormatDecimal(0xFFFF_FFFF_FFFF_FFFF), [FormatDecimal(0xFFFF_FFFF_FFFF_FFFF)], 0, 0, kind, FormatDecimal(0xFFFF_FFFF_FFFF_FFFF));
  }

  lemma Row317()
    ensures SegmentToBool("/1", 0) == Ok(true)
  {
    Facts317();
    BoolAt("/1", ["1"], 0, 0, "1", Ok(true));
  }

  lemma Row318()
    ensures SegmentToBool("/t", 0) == Ok(true)
  {
    Facts318();
    BoolAt("/t", ["t"], 0, 0, "t", Ok(true));
  }

  lemma Row319()
    ensures SegmentToBool("/T", 0) == Ok(true)
  {
    Facts319();
    BoolAt("/T", ["T"], 0, 0, "T", Ok(true));
  }

  lemma Row320()
    ensures SegmentToBool("/true", 0) == Ok(true)
  {
    Facts320();
    BoolAt("/true", ["true"], 0, 0, "true", Ok(true));
  }

  lemma Row321()
    ensures SegmentToBool("/TRUE", 0) == Ok(true)
  {
    Facts321();
    BoolAt("/TRUE", ["TRUE"], 0, 0, "TRUE", Ok(true));
  }

  lemma Row322()
    ensures SegmentToBool("/True", 0) == Ok(true)
  {
    Facts322();
    BoolAt("/True", ["True"], 0, 0, "True", Ok(true));
  }

  lemma Row323()
    ensures SegmentToBool("/0", 0) == Ok(false)
  {
    Facts323();
    BoolAt("/0", ["0"], 0, 0, "0", Ok(false));
  }

  lemma Row324()
    ensures SegmentToBool("/f", 0) == Ok(false)
  {
    Facts324();
    BoolAt("/f", ["f"], 0, 0, "f", Ok(false));
  }

  lemma Row325()
    ensures SegmentToBool("/F", 0) == Ok(false)
  {
    Facts325();
    BoolAt("/F", ["F"], 0, 0, "F", Ok(false));
  }

  lemma Row326()
    ensures SegmentToBool("/F", -1) == Ok(false)
  {
    Facts326();
    BoolAt("/F", ["F"], -1, 0, "F", Ok(false));
  }

  lemma Row327()
    ensures SegmentToBool("/false", 0) == Ok(false)
  {
    Facts327();
    BoolAt("/false", ["false"], 0, 0, "false", Ok(false));
  }

  lemma Row328()
    ensures SegmentToBool("/FALSE", 0) == Ok(false)
  {
    Facts328();
    BoolAt("/FALSE", ["FALSE"], 0, 0, "FALSE", Ok(false));
  }

  lemma Row329()
    ensures SegmentToBool("/False", 0) == Ok(false)
  {
    Facts329();
    BoolAt("/False", ["False"], 0, 0, "False", Ok(false));
  }

  lemma Row330()
    ensures SegmentToBool("/True", 1) == Err(OutOfBounds)
  {
    Facts330();
    BoolOut("/True", ["True"], 1);
  }

  lemma Row331()
    ensures SegmentToBool("/error", 0) == Err(ConversionFailed)
  {
    Facts331();
    BoolAt("/error", ["error"], 0, 0, "error", Err(ConversionFailed));
  }

  lemma Row425()
    ensures SubSegToString("/test1/res1/non1", "test1") == Ok("res1")
  {
    Facts425();
    SubStringAt("/test1/res1/non1", ["test1", "res1", "non1"], "test1", 0, "res1");
  }

  lemma Row426()
    ensures SubSegToString("test2/res2/non2", "test2") == Ok("res2")
  {
    Facts426();
    SubStringAt("test2/res2/non2", ["test2", "res2", "non2"], "test2", 0, "res2");
  }

  lemma Row427()
    ensures SubSegToString("/3/33/333", "3") == Ok("33")
  {
    Facts427();
    SubStringAt("/3/33/333", ["3", "33", "333"], "3", 0, "33");
  }

  lemma Row428()
    ensures SubSegToString("4/44/444", "4") == Ok("44")
  {
    Facts428();
    SubStringAt("4/44/444", ["4", "44", "444"], "4", 0, "44");
  }

  lemma Row429()
    ensures SubSegToString("/5/55/555", "55") == Ok("555")
  {
    Facts429();
    SubStringAt("/5/55/555", ["5", "55", "555"], "55", 1, "555");
  }

  lemma Row430()
    ensures SubSegToString("6/66/666", "66") == Ok("666")
  {
    Facts430();
    SubStringAt("6/66/666", ["6", "66", "666"], "66", 1, "666");
  }

  lemma Row431()
    ensures SubSegToString("/77", "77") == Err(KeyNotFound)
  {
    Facts431();
    SubStringMissing("/77", ["77"], "77");
  }

  lemma Row432()
    ensures SubSegToString("/", "88") == Err(KeyNotFound)
  {
    Facts432();
    SubStringMissing("/", [""], "88");
  }

  lemma Row461(kind: IntKind)
    requires !kind.signed
    ensures SubSegToInt("/t/0.1", "t", kind) == Ok(0)
  {
    Facts461(kind);
    SubIntAt("/t/0.1", ["t", "0.1"], "t", 0, kind, "0.1", 0);
  }

  lemma Row462(kind: IntKind)
    requires !kind.signed
    ensures SubSegToInt("/2/0.2a", "2", kind) == Ok(0)
  {
    Facts462(kind);
    SubIntAt("/2/0.2a", ["2", "0.2a"], "2", 0, kind, "0.2a", 0);
  }

  lemma Row463(kind: IntKind)
    requires !kind.signed
    ensures SubSegToInt("/xx/aaaa1.3", "xx", kind) == Ok(1)
  {
    Facts463(kind);
    SubIntAt("/xx/aaaa1.3", ["xx", "aaaa1.3"], "xx", 0, kind, "aaaa1.3", 1);
  }

  lemma Row464(kind: IntKind)
    requires !kind.signed
    ensures SubSegToInt("id/4", "id", kind) == Ok(4)
  {
    Facts464(kind);
    SubIntAt("id/4", ["id", "4"], "id", 0, kind, "4", 4);
  }

  lemma Row465(kind: IntKind)
    requires !kind.signed
    ensures SubSegToInt("/d/5aaaa", "d", kind) == Ok(5)
  {
    Facts465(kind);
    SubIntAt("/d/5aaaa", ["d", "5aaaa"], "d", 0, kind, "5aaaa", 5);
  }

  lemma Row466(kind: IntKind)
    requires !kind.signed
    ensures SubSegToInt("/d/e/aaa6aa", "e", kind) == Ok(6)
  {
    Facts466(kind);
    SubIntAt("/d/e/aaa6aa", ["d", "e", "aaa6aa"], "e", 1, kind, "aaa6aa", 6);
  }

  lemma Row467(kind: IntKind)
    requires !kind.signed
    ensures SubSegToInt("/a/g/r/.7.aaaa", "r", kind) == Ok(0)
  {
    Facts467(kind);
    SubIntAt("/a/g/r/.7.aaaa", ["a", "g", "r", ".7.aaaa"], "r", 2, kind, ".7.aaaa", 0);
  }

  lemma Row468(kind: IntKind)
    requires !kind.signed
    ensures SubSegToInt("/g/.8aa/gf/4", "g", kind) == Ok(0)
  {
    Facts468(kind);
    SubIntAt("/g/.8aa/gf/4", ["g", ".8aa", "gf", "4"], "g", 0, kind, ".8aa", 0);
  }

  lemma Row469(kind: IntKind)
    requires !kind.signed
    ensures SubSegToInt("/x/-9", "x", kind) == Ok(9)
  {
    Facts469(kind);
    SubIntAt("/x/-9", ["x", "-9"], "x", 0, kind, "-9", 9);
  }

  lemma Row470(kind: IntKind)
    requires !kind.signed
    ensures SubSegToInt("/w/rr/10-", "rr", kind) == Ok(10)
  {
    Facts470(kind);
    SubIntAt("/w/rr/10-", ["w", "rr", "10-"], "rr", 1, kind, "10-", 10);
  }

  lemma Row471(kind: IntKind)
    requires !kind.signed
    ensures SubSegToInt("/h/3.14e+11", "h", kind) == Ok(3)
  {
    Facts471(kind);
    SubIntAt("/h/3.14e+11", ["h", "3.14e+11"], "h", 0, kind, "3.14e+11", 3);
  }

  lemma Row472(kind: IntKind)
    requires !kind.signed
    ensures SubSegToInt("/y/3.14e.+12", "y", kind) == Ok(3)
  {
    Facts472(kind);
    SubIntAt("/y/3.14e.+12", ["y", "3.14e.+12"], "y", 0, kind, "3.14e.+12", 3);
  }

  lemma Row473(kind: IntKind)
    requires !kind.signed
    ensures SubSegToInt("/yy/3.14e+.13", "yy", kind) == Ok(3)
  {
    Facts473(kind);
    SubIntAt("/yy/3.14e+.13", ["yy", "3.14e+.13"], "yy", 0, kind, "3.14e+.13", 3);
  }

  lemma Row474(kind: IntKind)
    requires !kind.signed
    ensures SubSegToInt("/hh/s/3.14e+.13", "s", kind) == Ok(3)
  {
    Facts474(kind);
    SubIntAt("/hh/s/3.14e+.13", ["hh", "s", "3.14e+.13"], "s", 1, kind, "3.14e+.13", 3);
  }

  lemma Row475(kind: IntKind)
    requires !kind.signed
    ensures SubSegToInt("/g/.", "g", kind) == Err(ConversionFailed)
  {
    Facts475(kind);
    SubIntFails("/g/.", ["g", "."], "g", 0, kind, ".");
  }

  lemma Row476(kind: IntKind)
    requires !kind.signed
    ensures SubSegToInt("/j/error", "j", kind) == Err(ConversionFailed)
  {
    Facts476(kind);
    SubIntFails("/j/error", ["j", "error"], "j", 0, kind, "error");
  }

  lemma Row477(kind: IntKind)
    requires !kind.signed
    ensures SubSegToInt("/jj", "j", kind) == Err(KeyNotFound)
  {
    Facts477(kind);
    SubIntMissing("/jj", ["jj"], "j", kind);
  }

  lemma Row570()
    ensures SubSegToInt([Delim] + "k" + [Delim] + FormatDecimal(0xFFFF_FFFF_FFFF_FFFF), "k", Uint64) == Ok(0xFFFF_FFFF_FFFF_FFFF)
  {
    Facts570();
    SubIntAt([Delim] + "k" + [Delim] + FormatDecimal(0xFFFF_FFFF_FFFF_FFFF), ["k", FormatDecimal(0xFFFF_FFFF_FFFF_FFFF)], "k", 0, Uint64, FormatDecimal(0xFFFF_FFFF_FFFF_FFFF), 0xFFFF_FFFF_FFFF_FFFF);
  }

  lemma Row589(kind: IntKind)
    requires kind.signed
    ensures SubSegToInt("/t/0.1", "t", kind) == Ok(0)
  {
    Facts589(kind);
    SubIntAt("/t/0.1", ["t", "0.1"], "t", 0, kind, "0.1", 0);
  }

  lemma Row590(kind: IntKind)
    requires kind.signed
    ensures SubSegToInt("/2/0.2a", "2", kind) == Ok(0)
  {
    Facts590(kind);
    SubIntAt("/2/0.2a", ["2", "0.2a"], "2", 0, kind, "0.2a", 0);
  }

  lemma Row591(kind: IntKind)
    requires kind.signed
    ensures SubSegToInt("/xx/aaaa1.3", "xx", kind) == Ok(1)
  {
    Facts591(kind);
    SubIntAt("/xx/aaaa1.3", ["xx", "aaaa1.3"], "xx", 0, kind, "aaaa1.3", 1);
  }

  lemma Row592(kind: IntKind)
    requires kind.signed
    ensures SubSegToInt("id/4", "id", kind) == Ok(4)
  {
    Facts592(kind);
    SubIntAt("id/4", ["id", "4"], "id", 0, kind, "4", 4);
  }

  lemma Row593(kind: IntKind)
    requires kind.signed
    ensures SubSegToInt("/d/5aaaa", "d", kind) == Ok(5)
  {
    Facts593(kind);
    SubIntAt("/d/5aaaa", ["d", "5aaaa"], "d", 0, kind, "5aaaa", 5);
  }

  lemma Row594(kind: IntKind)
    requires kind.signed
    ensures SubSegToInt("/d/e/aaa6aa", "e", kind) == Ok(6)
  {
    Facts594(kind);
    SubIntAt("/d/e/aaa6aa", ["d", "e", "aaa6aa"], "e", 1, kind, "aaa6aa", 6);
  }

  lemma Row595(kind: IntKind)
    requires kind.signed
    ensures SubSegToInt("/a/g/r/.7.aaaa", "r", kind) == Ok(0)
  {
    Facts595(kind);
    SubIntAt("/a/g/r/.7.aaaa", ["a", "g", "r", ".7.aaaa"], "r", 2, kind, ".7.aaaa", 0);
  }

  lemma Row596(kind: IntKind)
    requires kind.signed
    ensures SubSegToInt("/g/.8aa/gf/4", "g", kind) == Ok(0)
  {
    Facts596(kind);
    SubIntAt("/g/.8aa/gf/4", ["g", ".8aa", "gf", "4"], "g", 0, kind, ".8aa", 0);
  }

  lemma Row597(kind: IntKind)
    requires kind.signed
    ensures SubSegToInt("/x/-9", "x", kind) == Ok(-9)
  {
    Facts597(kind);
    SubIntAt("/x/-9", ["x", "-9"], "x", 0, kind, "-9", -9);
  }

  lemma Row598(kind: IntKind)
    requires kind.signed
    ensures SubSegToInt("/w/rr/10-", "rr", kind) == Ok(10)
  {
    Facts598(kind);
    SubIntAt("/w/rr/10-", ["w", "rr", "10-"], "rr", 1, kind, "10-", 10);
  }

  lemma Row599(kind: IntKind)
    requires kind.signed
    ensures SubSegToInt("/h/3.14e+11", "h", kind) == Ok(3)
  {
    Facts599(kind);
    SubIntAt("/h/3.14e+11", ["h", "3.14e+11"], "h", 0, kind, "3.14e+11", 3);
  }

  lemma Row600(kind: IntKind)
    requires kind.signed
    ensures SubSegToInt("/y/3.14e.+12", "y", kind) == Ok(3)
  {
    Facts600(kind);
    SubIntAt("/y/3.14e.+12", ["y", "3.14e.+12"], "y", 0, kind, "3.14e.+12", 3);
  }

  lemma Row601(kind: IntKind)
    requires kind.signed
    ensures SubSegToInt("/yy/3.14e+.13", "yy", kind) == Ok(3)
  {
    Facts601(kind);
    SubIntAt("/yy/3.14e+.13", ["yy", "3.14e+.13"], "yy", 0, kind, "3.14e+.13", 3);
  }

  lemma Row602(kind: IntKind)
    requires kind.signed
    ensures SubSegToInt("/hh/s/3.14e+.13", "s", kind) == Ok(3)
  {
    Facts602(kind);
    SubIntAt("/hh/s/3.14e+.13", ["hh", "s", "3.14e+.13"], "s", 1, kind, "3.14e+.13", 3);
  }

  lemma Row603(kind: IntKind)
    requires kind.signed
    ensures SubSegToInt("/g/.", "g", kind) == Err(ConversionFailed)
  {
    Facts603(kind);
    SubIntFails("/g/.", ["g", "."], "g", 0, kind, ".");
  }

  lemma Row604(kind: IntKind)
    requires kind.signed
    ensures SubSegToInt("/j/error", "j", kind) == Err(ConversionFailed)
  {
    Facts604(kind);
    SubIntFails("/j/error", ["j", "error"], "j", 0, kind, "error");
  }

  lemma Row605(kind: IntKind)
    requires kind.signed
    ensures SubSegToInt("/jj", "j", kind) == Err(KeyNotFound)
  {
    Facts605(kind);
    SubIntMissing("/jj", ["jj"], "j", kind);
  }

  lemma Row606(kind: IntKind)
    requires kind.signed
    ensures SubSegToInt([Delim] + "k" + [Delim] + FormatDecimal(12414143242534534346456456457457456346756868686524234), "k", kind) == Err(ConversionFailed)
  {
    Facts606(kind);
    SubIntFails([Delim] + "k" + [Delim] + FormatDecimal(12414143242534534346456456457457456346756868686524234), ["k", FormatDecimal(12414143242534534346456456457457456346756868686524234)], "k", 0, kind, FormatDecimal(12414143242534534346456456457457456346756868686524234));
  }

  lemma Row707()
    ensures SubSegToBool("/a/1", "a") == Ok(true)
  {
    Facts707();
    SubBoolAt("/a/1", ["a", "1"], "a", 0, "1", Ok(true));
  }

  lemma Row708()
    ensures SubSegToBool("/a/b/t", "b") == Ok(true)
  {
    Facts708();
    SubBoolAt("/a/b/t", ["a", "b", "t"], "b", 1, "t", Ok(true));
  }

  lemma Row709()
    ensures SubSegToBool("/c/T", "c") == Ok(true)
  {
    Facts709();
    SubBoolAt("/c/T", ["c", "T"], "c", 0, "T", Ok(true));
  }

  lemma Row710()
    ensures SubSegToBool("/3/true", "3") == Ok(true)
  {
    Facts710();
    SubBoolAt("/3/true", ["3", "true"], "3", 0, "true", Ok(true));
  }

  lemma Row711()
    ensures SubSegToBool("/4/44/TRUE", "44") == Ok(true)
  {
    Facts711();
    SubBoolAt("/4/44/TRUE", ["4", "44", "TRUE"], "44", 1, "TRUE", Ok(true));
  }

  lemma Row712()
    ensures SubSegToBool("/h/5/True/5", "5") == Ok(true)
  {
    Facts712();
    SubBoolAt("/h/5/True/5", ["h", "5", "True", "5"], "5", 1, "True", Ok(true));
  }

  lemma Row713()
    ensures SubSegToBool("/0/0", "0") == Ok(false)
  {
    Facts713();
    SubBoolAt("/0/0", ["0", "0"], "0", 0, "0", Ok(false));
  }

  lemma Row714()
    ensures SubSegToBool("/h/f", "h") == Ok(false)
  {
    Facts714();
    SubBoolAt("/h/f", ["h", "f"], "h", 0, "f", Ok(false));
  }

  lemma Row715()
    ensures SubSegToBool("/F/F", "F") == Ok(false)
  {
    Facts715();
    SubBoolAt("/F/F", ["F", "F"], "F", 0, "F", Ok(false));
  }

  lemma Row716()
    ensures SubSegToBool("/g/F", "g") == Ok(false)
  {
    Facts716();
    SubBoolAt("/g/F", ["g", "F"], "g", 0, "F", Ok(false));
  }

  lemma Row717()
    ensures SubSegToBool("/j/false", "j") == Ok(false)
  {
    Facts717();
    SubBoolAt("/j/false", ["j", "false"], "j", 0, "false", Ok(false));
  }

  lemma Row718()
    ensures SubSegToBool("/k/FALSE", "k") == Ok(false)
  {
    Facts718();
    SubBoolAt("/k/FALSE", ["k", "FALSE"], "k", 0, "FALSE", Ok(false));
  }

  lemma Row719()
    ensures SubSegToBool("/l/False", "l") == Ok(false)
  {
    Facts719();
    SubBoolAt("/l/False", ["l", "False"], "l", 0, "False", Ok(false));
  }

  lemma Row720()
    ensures SubSegToBool("/True", "nx") == Err(KeyNotFound)
  {
    Facts720();
    SubBoolMissing("/True", ["True"], "nx");
  }

  lemma Row721()
    ensures SubSegToBool("/gg/error", "gg") == Err(ConversionFailed)
  {
    Facts721();
    SubBoolAt("/gg/error", ["gg", "error"], "gg", 0, "error", Err(ConversionFailed));
  }

  lemma Row813()
    ensures SpanToString("/test1", 0, 0) == Ok("/test1")
  {
    Facts813();
    SpanFromRoot("/test1", ["test1"], 0, 0, 1, ["test1"], "/test1");
  }

  lemma Row814()
    ensures SpanToString("/test1", 0, 1) == Ok("/test1")
  {
    Facts814();
    SpanFromRoot("/test1", ["test1"], 0, 1, 1, ["test1"], "/test1");
  }

  lemma Row815()
    ensures SpanToString("/test1/test-2", 0, 1) == Ok("/test1")
  {
    Facts815();
    SpanFromRoot("/test1/test-2", ["test1", "test-2"], 0, 1, 1, ["test1"], "/test1");
  }

  lemma Row816()
    ensures SpanToString("/test1/test-2/test_3/", 1, 2) == Ok("/test-2")
  {
    Facts816();
    SpanFromInner("/test1/test-2/test_3/", ["test1", "test-2", "test_3", ""], 1, 2, 1, 2, ["test-2"], "/test-2");
  }

  lemma Row817()
    ensures SpanToString("test4/t4", 0, 0) == Ok("test4/t4")
  {
    Facts817();
    SpanFromStart("test4/t4", ["test4", "t4"], 0, 0, 2, ["test4", "t4"], "test4/t4");
  }

  lemma Row818()
    ensures SpanToString("t444/t4", 0, 1) == Ok("t444")
  {
    Facts818();
    SpanFromStart("t444/t4", ["t444", "t4"], 0, 1, 1, ["t444"], "t444");
  }

  lemma Row819()
    ensures SpanToString("//test5", 0, 1) == Ok("/")
  {
    Facts819();
    SpanFromRoot("//test5", ["", "test5"], 0, 1, 1, [""], "/");
  }

  lemma Row820()
    ensures SpanToString("/test6//", 0, 1) == Ok("/test6")
  {
    Facts820();
    SpanFromRoot("/test6//", ["test6", "", ""], 0, 1, 1, ["test6"], "/test6");
  }

  lemma Row821()
    ensures SpanToString("/t6//", 0, 2) == Ok("/t6/")
  {
    Facts821();
    SpanFromRoot("/t6//", ["t6", "", ""], 0, 2, 2, ["t6", ""], "/t6/");
  }

  lemma Row822()
    ensures SpanToString("/66//", 0, 3) == Ok("/66//")
  {
    Facts822();
    SpanFromRoot("/66//", ["66", "", ""], 0, 3, 3, ["66", "", ""], "/66//");
  }

  lemma Row823()
    ensures SpanToString("/test7", 1, 2) == Err(OutOfBounds)
  {
    Facts823();
    SpanOut("/test7", ["test7"], 1, 2);
  }

  lemma Row824()
    ensures SpanToString("/test8", 0, -1) == Ok("")
  {
    Facts824();
    SpanEmpty("/test8", ["test8"], 0, -1, 0);
  }

  lemma Row825()
    ensures SpanToString("/t/9", 1, 1) == Ok("")
  {
    Facts825();
    SpanEmpty("/t/9", ["t", "9"], 1, 1, 1);
  }

  lemma Row826()
    ensures SpanToString("/", 0, 0) == Ok("/")
  {
    Facts826();
    SpanFromRoot("/", [""], 0, 0, 1, [""], "/");
  }

  lemma Row827()
    ensures SpanToString("/", 1, 1) == Err(OutOfBounds)
  {
    Facts827();
    SpanOut("/", [""], 1, 1);
  }

  lemma Row828()
    ensures SpanToString("/", -1, -1) == Ok("")
  {
    Facts828();
    SpanEmpty("/", [""], -1, -1, 0);
  }

  lemma Row829()
    ensures SpanToString("/", 0, -1) == Ok("")
  {
    Facts829();
    SpanEmpty("/", [""], 0, -1, 0);
  }

  lemma Row830()
    ensures SpanToString("/", -1, 0) == Ok("/")
  {
    Facts830();
    SpanFromRoot("/", [""], -1, 0, 1, [""], "/");
  }

  lemma Row831()
    ensures SpanToString("/test1", -1, 0) == Ok("/test1")
  {
    Facts831();
    SpanFromRoot("/test1", ["test1"], -1, 0, 1, ["test1"], "/test1");
  }

  lemma Row832()
    ensures SpanToString("/test1/test-2", 0, -1) == Ok("/test1")
  {
    Facts832();
    SpanFromRoot("/test1/test-2", ["test1", "test-2"], 0, -1, 1, ["test1"], "/test1");
  }

  lemma Row833()
    ensures SpanToString("/test1/test-2/test_3", -3, -1) == Ok("/test1/test-2")
  {
    Facts833();
    SpanFromRoot("/test1/test-2/test_3", ["test1", "test-2", "test_3"], -3, -1, 2, ["test1", "test-2"], "/test1/test-2");
  }

  lemma Row834()
    ensures SpanToString("/test11/test-12", -1, -1) == Ok("")
  {
    Facts834();
    SpanEmpty("/test11/test-12", ["test11", "test-12"], -1, -1, 1);
  }

  lemma Row835()
    ensures SpanToString("/test11/test-12", -1, -3) == Err(OutOfBounds)
  {
    Facts835();
    SpanOut("/test11/test-12", ["test11", "test-12"], -1, -3);
  }

  lemma Row836()
    ensures SpanToString("test4/t4/", -2, -1) == Ok("/t4")
  {
    Facts836();
    SpanFromInner("test4/t4/", ["test4", "t4", ""], -2, -1, 1, 2, ["t4"], "/t4");
  }

  lemma Row837()
    ensures SpanToString("/test5/test-6/test_7", -1, -3) == Err(OutOfBounds)
  {
    Facts837();
    SpanOut("/test5/test-6/test_7", ["test5", "test-6", "test_7"], -1, -3);
  }

  lemma Row838()
    ensures SpanToString("/test7", -3, 0) == Err(OutOfBounds)
  {
    Facts838();
    SpanOut("/test7", ["test7"], -3, 0);
  }

  lemma Row868()
    ensures SubSpanToString("/test1/res1/non1", "test1", 1) == Ok("/res1")
  {
    Facts868();
    SubSpanAt("/test1/res1/non1", ["test1", "res1", "non1"], 3, "test1", 1, 0, 1, 1, ["res1"], "/res1");
  }

  lemma Row869()
    ensures SubSpanToString("test2/res2/non2", "test2", 2) == Ok("/res2/non2")
  {
    Facts869();
    SubSpanAt("test2/res2/non2", ["test2", "res2", "non2"], 3, "test2", 2, 0, 1, 2, ["res2", "non2"], "/res2/non2");
  }

  lemma Row870()
    ensures SubSpanToString("/3/33/333", "3", 1) == Ok("/33")
  {
    Facts870();
    SubSpanAt("/3/33/333", ["3", "33", "333"], 3, "3", 1, 0, 1, 1, ["33"], "/33");
  }

  lemma Row871()
    ensures SubSpanToString("4/44/444", "4", 2) == Ok("/44/444")
  {
    Facts871();
    SubSpanAt("4/44/444", ["4", "44", "444"], 3, "4", 2, 0, 1, 2, ["44", "444"], "/44/444");
  }

  lemma Row872()
    ensures SubSpanToString("/5/55/555", "55", 1) == Ok("/555")
  {
    Facts872();
    SubSpanAt("/5/55/555", ["5", "55", "555"], 3, "55", 1, 1, 2, 1, ["555"], "/555");
  }

  lemma Row873()
    ensures SubSpanToString("6/66/666", "66", 2) == Err(OutOfBounds)
  {
    Facts873();
    SubSpanOut("6/66/666", ["6", "66", "666"], "66", 2, 1);
  }

  lemma Row874()
    ensures SubSpanToString("/77", "77", 1) == Err(KeyNotFound)
  {
    Facts874();
    SubSpanMissing("/77", ["77"], "77", 1);
  }

  lemma Row875()
    ensures SubSpanToString("/", "88", 1) == Err(KeyNotFound)
  {
    Facts875();
    SubSpanMissing("/", [""], "88", 1);
  }

  lemma Row876()
    ensures SubSpanToString("/t1/res1/non1/xtra", "t1", -2) == Ok("/res1")
  {
    Facts876();
    SubSpanAt("/t1/res1/non1/xtra", ["t1", "res1", "non1", "xtra"], 4, "t1", -2, 0, 1, 1, ["res1"], "/res1");
  }

  lemma Row877()
    ensures SubSpanToString("t2/res2/non2/xtra", "t2", 0) == Ok("/res2/non2/xtra")
  {
    Facts877();
    SubSpanAt("t2/res2/non2/xtra", ["t2", "res2", "non2", "xtra"], 4, "t2", 0, 0, 1, 3, ["res2", "non2", "xtra"], "/res2/non2/xtra");
  }

  lemma Row878()
    ensures SubSpanToString("/3/33/333/303", "3", -1) == Ok("/33/333")
  {
    Facts878();
    SubSpanAt("/3/33/333/303", ["3", "33", "333", "303"], 4, "3", -1, 0, 1, 2, ["33", "333"], "/33/333");
  }

  lemma Row879()
    ensures SubSpanToString("/77", "77", -1) == Err(KeyNotFound)
  {
    Facts879();
    SubSpanMissing("/77", ["77"], "77", -1);
  }

  lemma Row880()
    ensures SubSpanToString("/", "88", 0) == Err(KeyNotFound)
  {
    Facts880();
    SubSpanMissing("/", [""], "88", 0);
  }

  /** Lines 22-40: segments chosen by non-negative and by negative index. */
  lemma SegmentToStringTable()
    ensures SegmentToString("/test1", 0) == Ok("test1")
    ensures SegmentToString("/test1/test-2", 1) == Ok("test-2")
    ensures SegmentToString("/test1/test-2/test_3/", 2) == Ok("test_3")
    ensures SegmentToString("test4/t4", 0) == Ok("test4")
    ensures SegmentToString("//test5", 1) == Ok("test5")
    ensures SegmentToString("/test6//", 1) == Ok("")
    ensures SegmentToString("/test7", 3) == Err(OutOfBounds)
    ensures SegmentToString("//test8", 0) == Ok("")
    ensures SegmentToString("/", 0) == Ok("")
    ensures SegmentToString("/test1", -1) == Ok("test1")
    ensures SegmentToString("/test1/test-2", -1) == Ok("test-2")
    ensures SegmentToString("/test1/test-2", -2) == Ok("test1")
    ensures SegmentToString("/test1/test-2/test_3", -3) == Ok("test1")
    ensures SegmentToString("test4/t4/", -1) == Ok("")
    ensures SegmentToString("//test5", -1) == Ok("test5")
    ensures SegmentToString("/test6//", -1) == Ok("")
    ensures SegmentToString("/test7", -3) == Err(OutOfBounds)
    ensures SegmentToString("//test8", -2) == Ok("")
    ensures SegmentToString("/", -1) == Ok("")
  {
    Row22();
    Row23();
    Row24();
    Row25();
    Row26();
    Row27();
    Row28();
    Row29();
    Row30();
    Row31();
    Row32();
    Row33();
    Row34();
    Row35();
    Row36();
    Row37();
    Row38();
    Row39();
    Row40();
  }

  /** Lines 69-86, which the library runs for every unsigned width (lines 90-177), for every unsigned kind. */
  lemma SegmentToUintTable(kind: IntKind)
    requires !kind.signed
    ensures SegmentToInt("/0.1", 0, kind) == Ok(0)
    ensures SegmentToInt("/0.2a", 0, kind) == Ok(0)
    ensures SegmentToInt("/aaaa1.3", 0, kind) == Ok(1)
    ensures SegmentToInt("/4", 0, kind) == Ok(4)
    ensures SegmentToInt("/5aaaa", 0, kind) == Ok(5)
    ensures SegmentToInt("/aaa6aa", 0, kind) == Ok(6)
    ensures SegmentToInt("/.7.aaaa", 0, kind) == Ok(0)
    ensures SegmentToInt("/.8aa", 0, kind) == Ok(0)
    ensures SegmentToInt("/-9", 0, kind) == Ok(9)
    ensures SegmentToInt("/-9", -1, kind) == Ok(9)
    ensures SegmentToInt("/10-", 0, kind) == Ok(10)
    ensures SegmentToInt("/3.14e+11", 0, kind) == Ok(3)
    ensures SegmentToInt("/3.14e.+12", 0, kind) == Ok(3)
    ensures SegmentToInt("/3.14e+.13", 0, kind) == Ok(3)
    ensures SegmentToInt("/3.14e+.13", -1, kind) == Ok(3)
    ensures SegmentToInt("/8", 1, kind) == Err(OutOfBounds)
    ensures SegmentToInt("/.", 0, kind) == Err(ConversionFailed)
    ensures SegmentToInt("/error", 0, kind) == Err(ConversionFailed)
  {
    Row69(kind);
    Row70(kind);
    Row71(kind);
    Row72(kind);
    Row73(kind);
    Row74(kind);
    Row75(kind);
    Row76(kind);
    Row77(kind);
    Row78(kind);
    Row79(kind);
    Row80(kind);
    Row81(kind);
    Row82(kind);
    Row83(kind);
    Row84(kind);
    Row85(kind);
    Row86(kind);
  }

  /** Lines 198-216, which the library runs for every signed width (lines 218-306), for every signed kind. */
  lemma SegmentToIntTable(kind: IntKind)
    requires kind.signed
    ensures SegmentToInt("/0.1", 0, kind) == Ok(0)
    ensures SegmentToInt("/0.2a", 0, kind) == Ok(0)
    ensures SegmentToInt("/aaaa1.3", 0, kind) == Ok(1)
    ensures SegmentToInt("/4", 0, kind) == Ok(4)
    ensures SegmentToInt("/5aaaa", 0, kind) == Ok(5)
    ensures SegmentToInt("/aaa6aa", 0, kind) == Ok(6)
    ensures SegmentToInt("/.7.aaaa", 0, kind) == Ok(0)
    ensures SegmentToInt("/.8aa", 0, kind) == Ok(0)
    ensures SegmentToInt("/-9", 0, kind) == Ok(-9)
    ensures SegmentToInt("/-9", -1, kind) == Ok(-9)
    ensures SegmentToInt("/10-", 0, kind) == Ok(10)
    ensures SegmentToInt("/3.14e+11", 0, kind) == Ok(3)
    ensures SegmentToInt("/3.14e.+12", 0, kind) == Ok(3)
    ensures SegmentToInt("/3.14e+.13", 0, kind) == Ok(3)
    ensures SegmentToInt("/3.14e+.13", -1, kind) == Ok(3)
    ensures SegmentToInt("/8", 1, kind) == Err(OutOfBounds)
    ensures SegmentToInt("/.", 0, kind) == Err(ConversionFailed)
    ensures SegmentToInt("/error", 0, kind) == Err(ConversionFailed)
    ensures SegmentToInt([Delim] + FormatDecimal(0xFFFF_FFFF_FFFF_FFFF), 0, kind) == Err(ConversionFailed)
  {
    Row198(kind);
    Row199(kind);
    Row200(kind);
    Row201(kind);
    Row202(kind);
    Row203(kind);
    Row204(kind);
    Row205(kind);
    Row206(kind);
    Row207(kind);
    Row208(kind);
    Row209(kind);
    Row210(kind);
    Row211(kind);
    Row212(kind);
    Row213(kind);
    Row214(kind);
    Row215(kind);
    Row216(kind);
  }

  /** Lines 317-331: every spelling of true and of false, a missing segment and a non-boolean. */
  lemma SegmentToBoolTable()
    ensures SegmentToBool("/1", 0) == Ok(true)
    ensures SegmentToBool("/t", 0) == Ok(true)
    ensures SegmentToBool("/T", 0) == Ok(true)
    ensures SegmentToBool("/true", 0) == Ok(true)
    ensures SegmentToBool("/TRUE", 0) == Ok(true)
    ensures SegmentToBool("/True", 0) == Ok(true)
    ensures SegmentToBool("/0", 0) == Ok(false)
    ensures SegmentToBool("/f", 0) == Ok(false)
    ensures SegmentToBool("/F", 0) == Ok(false)
    ensures SegmentToBool("/F", -1) == Ok(false)
    ensures SegmentToBool("/false", 0) == Ok(false)
    ensures SegmentToBool("/FALSE", 0) == Ok(false)
    ensures SegmentToBool("/False", 0) == Ok(false)
    ensures SegmentToBool("/True", 1) == Err(OutOfBounds)
    ensures SegmentToBool("/error", 0) == Err(ConversionFailed)
  {
    Row317();
    Row318();
    Row319();
    Row320();
    Row321();
    Row322();
    Row323();
    Row324();
    Row325();
    Row326();
    Row327();
    Row328();
    Row329();
    Row330();
    Row331();
  }

  /** Lines 425-432: the segment after the first match of a key. */
  lemma SubSegToStringTable()
    ensures SubSegToString("/test1/res1/non1", "test1") == Ok("res1")
    ensures SubSegToString("test2/res2/non2", "test2") == Ok("res2")
    ensures SubSegToString("/3/33/333", "3") == Ok("33")
    ensures SubSegToString("4/44/444", "4") == Ok("44")
    ensures SubSegToString("/5/55/555", "55") == Ok("555")
    ensures SubSegToString("6/66/666", "66") == Ok("666")
    ensures SubSegToString("/77", "77") == Err(KeyNotFound)
    ensures SubSegToString("/", "88") == Err(KeyNotFound)
  {
    Row425();
    Row426();
    Row427();
    Row428();
    Row429();
    Row430();
    Row431();
    Row432();
  }

  /** Lines 461-477, which the library runs for every unsigned width, for every unsigned kind. */
  lemma SubSegToUintTable(kind: IntKind)
    requires !kind.signed
    ensures SubSegToInt("/t/0.1", "t", kind) == Ok(0)
    ensures SubSegToInt("/2/0.2a", "2", kind) == Ok(0)
    ensures SubSegToInt("/xx/aaaa1.3", "xx", kind) == Ok(1)
    ensures SubSegToInt("id/4", "id", kind) == Ok(4)
    ensures SubSegToInt("/d/5aaaa", "d", kind) == Ok(5)
    ensures SubSegToInt("/d/e/aaa6aa", "e", kind) == Ok(6)
    ensures SubSegToInt("/a/g/r/.7.aaaa", "r", kind) == Ok(0)
    ensures SubSegToInt("/g/.8aa/gf/4", "g", kind) == Ok(0)
    ensures SubSegToInt("/x/-9", "x", kind) == Ok(9)
    ensures SubSegToInt("/w/rr/10-", "rr", kind) == Ok(10)
    ensures SubSegToInt("/h/3.14e+11", "h", kind) == Ok(3)
    ensures SubSegToInt("/y/3.14e.+12", "y", kind) == Ok(3)
    ensures SubSegToInt("/yy/3.14e+.13", "yy", kind) == Ok(3)
    ensures SubSegToInt("/hh/s/3.14e+.13", "s", kind) == Ok(3)
    ensures SubSegToInt("/g/.", "g", kind) == Err(ConversionFailed)
    ensures SubSegToInt("/j/error", "j", kind) == Err(ConversionFailed)
    ensures SubSegToInt("/jj", "j", kind) == Err(KeyNotFound)
  {
    Row461(kind);
    Row462(kind);
    Row463(kind);
    Row464(kind);
    Row465(kind);
    Row466(kind);
    Row467(kind);
    Row468(kind);
    Row469(kind);
    Row470(kind);
    Row471(kind);
    Row472(kind);
    Row473(kind);
    Row474(kind);
    Row475(kind);
    Row476(kind);
    Row477(kind);
  }

  /** Lines 589-606, which the library runs for every signed width, for every signed kind. */
  lemma SubSegToIntTable(kind: IntKind)
    requires kind.signed
    ensures SubSegToInt("/t/0.1", "t", kind) == Ok(0)
    ensures SubSegToInt("/2/0.2a", "2", kind) == Ok(0)
    ensures SubSegToInt("/xx/aaaa1.3", "xx", kind) == Ok(1)
    ensures SubSegToInt("id/4", "id", kind) == Ok(4)
    ensures SubSegToInt("/d/5aaaa", "d", kind) == Ok(5)
    ensures SubSegToInt("/d/e/aaa6aa", "e", kind) == Ok(6)
    ensures SubSegToInt("/a/g/r/.7.aaaa", "r", kind) == Ok(0)
    ensures SubSegToInt("/g/.8aa/gf/4", "g", kind) == Ok(0)
    ensures SubSegToInt("/x/-9", "x", kind) == Ok(-9)
    ensures SubSegToInt("/w/rr/10-", "rr", kind) == Ok(10)
    ensures SubSegToInt("/h/3.14e+11", "h", kind) == Ok(3)
    ensures SubSegToInt("/y/3.14e.+12", "y", kind) == Ok(3)
    ensures SubSegToInt("/yy/3.14e+.13", "yy", kind) == Ok(3)
    ensures SubSegToInt("/hh/s/3.14e+.13", "s", kind) == Ok(3)
    ensures SubSegToInt("/g/.", "g", kind) == Err(ConversionFailed)
    ensures SubSegToInt("/j/error", "j", kind) == Err(ConversionFailed)
    ensures SubSegToInt("/jj", "j", kind) == Err(KeyNotFound)
    ensures SubSegToInt([Delim] + "k" + [Delim] + FormatDecimal(12414143242534534346456456457457456346756868686524234), "k", kind) == Err(ConversionFailed)
  {
    Row589(kind);
    Row590(kind);
    Row591(kind);
    Row592(kind);
    Row593(kind);
    Row594(kind);
    Row595(kind);
    Row596(kind);
    Row597(kind);
    Row598(kind);
    Row599(kind);
    Row600(kind);
    Row601(kind);
    Row602(kind);
    Row603(kind);
    Row604(kind);
    Row605(kind);
    Row606(kind);
  }

  /** Lines 707-721: booleans after a key, a missing key and a non-boolean. */
  lemma SubSegToBoolTable()
    ensures SubSegToBool("/a/1", "a") == Ok(true)
    ensures SubSegToBool("/a/b/t", "b") == Ok(true)
    ensures SubSegToBool("/c/T", "c") == Ok(true)
    ensures SubSegToBool("/3/true", "3") == Ok(true)
    ensures SubSegToBool("/4/44/TRUE", "44") == Ok(true)
    ensures SubSegToBool("/h/5/True/5", "5") == Ok(true)
    ensures SubSegToBool("/0/0", "0") == Ok(false)
    ensures SubSegToBool("/h/f", "h") == Ok(false)
    ensures SubSegToBool("/F/F", "F") == Ok(false)
    ensures SubSegToBool("/g/F", "g") == Ok(false)
    ensures SubSegToBool("/j/false", "j") == Ok(false)
    ensures SubSegToBool("/k/FALSE", "k") == Ok(false)
    ensures SubSegToBool("/l/False", "l") == Ok(false)
    ensures SubSegToBool("/True", "nx") == Err(KeyNotFound)
    ensures SubSegToBool("/gg/error", "gg") == Err(ConversionFailed)
  {
    Row707();
    Row708();
    Row709();
    Row710();
    Row711();
    Row712();
    Row713();
    Row714();
    Row715();
    Row716();
    Row717();
    Row718();
    Row719();
    Row720();
    Row721();
  }

  /** Lines 813-838: spans between first and last indexes, negative ones counting from the end. */
  lemma SpanToStringTable()
    ensures SpanToString("/test1", 0, 0) == Ok("/test1")
    ensures SpanToString("/test1", 0, 1) == Ok("/test1")
    ensures SpanToString("/test1/test-2", 0, 1) == Ok("/test1")
    ensures SpanToString("/test1/test-2/test_3/", 1, 2) == Ok("/test-2")
    ensures SpanToString("test4/t4", 0, 0) == Ok("test4/t4")
    ensures SpanToString("t444/t4", 0, 1) == Ok("t444")
    ensures SpanToString("//test5", 0, 1) == Ok("/")
    ensures SpanToString("/test6//", 0, 1) == Ok("/test6")
    ensures SpanToString("/t6//", 0, 2) == Ok("/t6/")
    ensures SpanToString("/66//", 0, 3) == Ok("/66//")
    ensures SpanToString("/test7", 1, 2) == Err(OutOfBounds)
    ensures SpanToString("/test8", 0, -1) == Ok("")
    ensures SpanToString("/t/9", 1, 1) == Ok("")
    ensures SpanToString("/", 0, 0) == Ok("/")
    ensures SpanToString("/", 1, 1) == Err(OutOfBounds)
    ensures SpanToString("/", -1, -1) == Ok("")
    ensures SpanToString("/", 0, -1) == Ok("")
    ensures SpanToString("/", -1, 0) == Ok("/")
    ensures SpanToString("/test1", -1, 0) == Ok("/test1")
    ensures SpanToString("/test1/test-2", 0, -1) == Ok("/test1")
    ensures SpanToString("/test1/test-2/test_3", -3, -1) == Ok("/test1/test-2")
    ensures SpanToString("/test11/test-12", -1, -1) == Ok("")
    ensures SpanToString("/test11/test-12", -1, -3) == Err(OutOfBounds)
    ensures SpanToString("test4/t4/", -2, -1) == Ok("/t4")
    ensures SpanToString("/test5/test-6/test_7", -1, -3) == Err(OutOfBounds)
    ensures SpanToString("/test7", -3, 0) == Err(OutOfBounds)
  {
    Row813();
    Row814();
    Row815();
    Row816();
    Row817();
    Row818();
    Row819();
    Row820();
    Row821();
    Row822();
    Row823();
    Row824();
    Row825();
    Row826();
    Row827();
    Row828();
    Row829();
    Row830();
    Row831();
    Row832();
    Row833();
    Row834();
    Row835();
    Row836();
    Row837();
    Row838();
  }

  /** Lines 868-880: spans after a key, up to an offset among the segments that follow it. */
  lemma SubSpanToStringTable()
    ensures SubSpanToString("/test1/res1/non1", "test1", 1) == Ok("/res1")
    ensures SubSpanToString("test2/res2/non2", "test2", 2) == Ok("/res2/non2")
    ensures SubSpanToString("/3/33/333", "3", 1) == Ok("/33")
    ensures SubSpanToString("4/44/444", "4", 2) == Ok("/44/444")
    ensures SubSpanToString("/5/55/555", "55", 1) == Ok("/555")
    ensures SubSpanToString("6/66/666", "66", 2) == Err(OutOfBounds)
    ensures SubSpanToString("/77", "77", 1) == Err(KeyNotFound)
    ensures SubSpanToString("/", "88", 1) == Err(KeyNotFound)
    ensures SubSpanToString("/t1/res1/non1/xtra", "t1", -2) == Ok("/res1")
    ensures SubSpanToString("t2/res2/non2/xtra", "t2", 0) == Ok("/res2/non2/xtra")
    ensures SubSpanToString("/3/33/333/303", "3", -1) == Ok("/33/333")
    ensures SubSpanToString("/77", "77", -1) == Err(KeyNotFound)
    ensures SubSpanToString("/", "88", 0) == Err(KeyNotFound)
  {
    Row868();
    Row869();
    Row870();
    Row871();
    Row872();
    Row873();
    Row874();
    Row875();
    Row876();
    Row877();
    Row878();
    Row879();
    Row880();
  }

  /** Lines 179 and 570: the largest 64-bit unsigned value, by index and by key. */
  lemma Uint64MaxRows()
    ensures SegmentToInt([Delim] + FormatDecimal(0xFFFF_FFFF_FFFF_FFFF), 0, Uint64) == Ok(0xFFFF_FFFF_FFFF_FFFF)
    ensures SubSegToInt([Delim] + "k" + [Delim] + FormatDecimal(0xFFFF_FFFF_FFFF_FFFF), "k", Uint64) == Ok(0xFFFF_FFFF_FFFF_FFFF)
  {
    Row179();
    Row570();
  }
}
