/**
 * Format detection by file-name suffix (src/data_source/utils.rs): trailing
 * single quotes are trimmed, then a case-sensitive `ends_with` against five
 * suffixes decides.
 */
module DataSourceUtils {
  import opened Wrappers
  import opened Strings
  import opened DataSourceSchema

  const QUOTE: char := '\''

  /** One of the five suffixes the detector recognises. */
  predicate HasKnownSuffix(t: string) {
    EndsWith(t, ".csv") || EndsWith(t, ".json") || EndsWith(t, ".log") || EndsWith(t, ".txt") || EndsWith(t, ".tsv")
  }

  function GetFormat(fileName: string): (r: Option<DataSourceFormat>)
    ensures var t := TrimEndMatches(fileName, QUOTE);
      && (EndsWith(t, ".csv") ==> r == Some(CSV))
      && (EndsWith(t, ".json") ==> r == Some(JSON))
      && (EndsWith(t, ".log") ==> r == Some(NdJson(".log")))
      && (EndsWith(t, ".txt") ==> r == Some(NdJson(".txt")))
      && (EndsWith(t, ".tsv") ==> r == Some(TSV))
      && (r.Some? <==> HasKnownSuffix(t))
    ensures r != Some(XLSX)
  {
    var t := TrimEndMatches(fileName, QUOTE);
    if EndsWith(t, ".csv") then Some(CSV)
    else if EndsWith(t, ".json") then Some(JSON)
    else if EndsWith(t, ".log") then Some(NdJson(".log"))
    else if EndsWith(t, ".txt") then Some(NdJson(".txt"))
    else if EndsWith(t, ".tsv") then Some(TSV)
    else None
  }

  /** Appending a quote never changes the detected format. */
  lemma {:induction false} TrailingQuoteIgnored(s: string)
    ensures GetFormat(s + [QUOTE]) == GetFormat(s)
  {
    assert (s + [QUOTE])[..|s|] == s;
  }

  /** Matching is case-sensitive. */
  lemma UpperCaseUndetected()
    ensures GetFormat("a.CSV") == None
  {
    var t := "a.CSV";
    assert TrimEndMatches(t, QUOTE) == t;
    assert t[|t| - 1] == 'V';
    assert !HasKnownSuffix(t) by {
      LastCharOfSuffix(t, ".csv");
      LastCharOfSuffix(t, ".json");
      LastCharOfSuffix(t, ".log");
      LastCharOfSuffix(t, ".txt");
      LastCharOfSuffix(t, ".tsv");
    }
  }

  lemma LastCharOfSuffix(t: string, suffix: string)
    requires suffix != []
    ensures EndsWith(t, suffix) ==> t[|t| - 1] == suffix[|suffix| - 1]
  {
    if EndsWith(t, suffix) {
      assert t[|t| - |suffix|..][|suffix| - 1] == t[|t| - 1];
    }
  }

  /** Spreadsheets, with or without a sheet selector, are never recognised. */
  lemma SpreadsheetUndetected()
    ensures GetFormat("a.xlsx") == None
    ensures GetFormat("a.xlsx#Sheet2") == None
  {
  }

  /** A quoted inline path is recognised once its closing quote is trimmed. */
  lemma QuotedPathDetected()
    ensures GetFormat("'data/sample.csv'") == Some(CSV)
  {
    assert TrimEndMatches("'data/sample.csv'", QUOTE) == "'data/sample.csv";
  }

  /** The suffixes contain neither a quote nor a path separator. */
  predicate FreeOf(t: string, c: char) {
    forall i :: 0 <= i < |t| ==> t[i] != c
  }

  lemma {:induction false} EndsWithAfterPrefix(p: string, t: string, suffix: string)
    requires FreeOf(suffix, '/')
    ensures EndsWith(p + "/" + t, suffix) <==> EndsWith(t, suffix)
  {
    var s := p + "/" + t;
    if |suffix| <= |t| {
      assert s[|s| - |suffix|..] == t[|t| - |suffix|..];
    } else if |suffix| <= |s| {
      var k := |s| - |t| - 1;
      assert s[k] == '/';
      assert s[|s| - |suffix|..][k - (|s| - |suffix|)] == '/';
    }
  }

  /** Removing the trailing quotes of `p + "/" + t` touches only `t`, unless `t` is all quotes. */
  lemma {:induction false} TrimAfterPrefix(p: string, t: string)
    ensures TrimEndMatches(t, QUOTE) != [] ==>
      TrimEndMatches(p + "/" + t, QUOTE) == p + "/" + TrimEndMatches(t, QUOTE)
    ensures TrimEndMatches(t, QUOTE) == [] ==>
      TrimEndMatches(p + "/" + t, QUOTE) == p + "/"
    decreases |t|
  {
    var s := p + "/" + t;
    if t == [] {
      assert s == p + "/";
    } else if t[|t| - 1] != QUOTE {
    } else {
      assert s[..|s| - 1] == p + "/" + t[..|t| - 1];
      TrimAfterPrefix(p, t[..|t| - 1]);
    }
  }

  /** Prefixing with a directory keeps exactly the recognised suffixes of a non-empty name. */
  lemma KnownSuffixesAfterPrefix(dataDir: string, t: string)
    ensures EndsWith(dataDir + "/" + t, ".csv") <==> EndsWith(t, ".csv")
    ensures EndsWith(dataDir + "/" + t, ".json") <==> EndsWith(t, ".json")
    ensures EndsWith(dataDir + "/" + t, ".log") <==> EndsWith(t, ".log")
    ensures EndsWith(dataDir + "/" + t, ".txt") <==> EndsWith(t, ".txt")
    ensures EndsWith(dataDir + "/" + t, ".tsv") <==> EndsWith(t, ".tsv")
  {
    EndsWithAfterPrefix(dataDir, t, ".csv");
    EndsWithAfterPrefix(dataDir, t, ".json");
    EndsWithAfterPrefix(dataDir, t, ".log");
    EndsWithAfterPrefix(dataDir, t, ".txt");
    EndsWithAfterPrefix(dataDir, t, ".tsv");
  }

  /** A name whose trimmed form ends with a path separator is never recognised. */
  lemma SeparatorEndUndetected(s: string)
    requires TrimEndMatches(s, QUOTE) != [] && TrimEndMatches(s, QUOTE)[|TrimEndMatches(s, QUOTE)| - 1] == '/'
    ensures GetFormat(s) == None
  {
    var t := TrimEndMatches(s, QUOTE);
    LastCharOfSuffix(t, ".csv");
    LastCharOfSuffix(t, ".json");
    LastCharOfSuffix(t, ".log");
    LastCharOfSuffix(t, ".txt");
    LastCharOfSuffix(t, ".tsv");
  }

  /**
   * Detection is unaffected by the data directory a relative path is later
   * prefixed with: `register_table` may detect before or after prefixing.
   */
  lemma PrefixPreservesFormat(dataDir: string, path: string)
    ensures GetFormat(dataDir + "/" + path) == GetFormat(path)
  {
    var t := TrimEndMatches(path, QUOTE);
    var prefixed := dataDir + "/" + path;
    TrimAfterPrefix(dataDir, path);
    if t == [] {
      assert TrimEndMatches(prefixed, QUOTE) == dataDir + "/";
      SeparatorEndUndetected(prefixed);
    } else {
      assert TrimEndMatches(prefixed, QUOTE) == dataDir + "/" + t;
      KnownSuffixesAfterPrefix(dataDir, t);
      if EndsWith(t, ".csv") {
        var fa := SuffixDecidesFormat(prefixed, ".csv");
        var fb := SuffixDecidesFormat(path, ".csv");
      } else if EndsWith(t, ".json") {
        var fa := SuffixDecidesFormat(prefixed, ".json");
        var fb := SuffixDecidesFormat(path, ".json");
      } else if EndsWith(t, ".log") {
        var fa := SuffixDecidesFormat(prefixed, ".log");
        var fb := SuffixDecidesFormat(path, ".log");
      } else if EndsWith(t, ".txt") {
        var fa := SuffixDecidesFormat(prefixed, ".txt");
        var fb := SuffixDecidesFormat(path, ".txt");
      } else if EndsWith(t, ".tsv") {
        var fa := SuffixDecidesFormat(prefixed, ".tsv");
        var fb := SuffixDecidesFormat(path, ".tsv");
      }
    }
  }

  /** A name whose trimmed form ends with a recognised suffix is detected as that suffix's format. */
  lemma SuffixDecidesFormat(a: string, suffix: string) returns (format: DataSourceFormat)
    requires suffix in [".csv", ".json", ".log", ".txt", ".tsv"]
    requires EndsWith(TrimEndMatches(a, QUOTE), suffix)
    ensures GetFormat(a) == Some(format) && format == SuffixFormat(suffix)
  {
    format := SuffixFormat(suffix);
  }

  /** The format each recognised suffix stands for. */
  function SuffixFormat(suffix: string): DataSourceFormat {
    if suffix == ".csv" then CSV
    else if suffix == ".json" then JSON
    else if suffix == ".log" then NdJson(".log")
    else if suffix == ".txt" then NdJson(".txt")
    else TSV
  }

  /**
   * If a name's trimmed form ends with a quote-free suffix, so does the name
   * with every quote deleted, and that form has no trailing quote to trim.
   */
  lemma StoredKeepsSuffix(name: string, suffix: string)
    requires suffix != [] && QUOTE !in suffix
    requires EndsWith(TrimEndMatches(name, QUOTE), suffix)
    ensures var stored := DeleteChar(name, QUOTE);
      EndsWith(stored, suffix) && TrimEndMatches(stored, QUOTE) == stored
  {
    var head, tail := SplitAtSuffix(name, suffix);
    DeleteCharRun(tail, QUOTE);
    DeleteCharAbsent(suffix, QUOTE);
    DeletePastSuffix(head, suffix, tail);
    EndsWithConcat(DeleteChar(head, QUOTE), suffix);
  }

  /** A name whose trimmed form ends with `suffix` is some head, the suffix, and a run of quotes. */
  lemma SplitAtSuffix(name: string, suffix: string) returns (head: string, tail: string)
    requires EndsWith(TrimEndMatches(name, QUOTE), suffix)
    ensures name == head + suffix + tail
    ensures forall i :: 0 <= i < |tail| ==> tail[i] == QUOTE
  {
    var t := TrimEndMatches(name, QUOTE);
    tail := name[|t|..];
    head := t[..|t| - |suffix|];
    assert t == head + suffix;
    assert name == t + tail;
    TrimmedTailIsRun(name, QUOTE);
  }

  lemma DeletePastSuffix(head: string, suffix: string, tail: string)
    requires DeleteChar(tail, QUOTE) == [] && DeleteChar(suffix, QUOTE) == suffix
    ensures DeleteChar(head + suffix + tail, QUOTE) == DeleteChar(head, QUOTE) + suffix
  {
    DeleteCharAppend(head + suffix, tail, QUOTE);
    DeleteCharAppend(head, suffix, QUOTE);
  }

  lemma EndsWithConcat(a: string, b: string)
    requires b != [] && QUOTE !in b
    ensures EndsWith(a + b, b) && TrimEndMatches(a + b, QUOTE) == a + b
  {
    var s := a + b;
    assert s[|s| - |b|..] == b;
    assert s[|s| - 1] == b[|b| - 1];
  }

  /**
   * A recognised name keeps its format when every quote in it is deleted,
   * which is how an inline path is stored in the catalog.
   */
  lemma QuoteFreePathKeepsFormat(name: string)
    requires GetFormat(name).Some?
    ensures GetFormat(ReplaceAll(name, [QUOTE], [])) == GetFormat(name)
  {
    ReplaceCharIsDelete(name, QUOTE);
    DeletedQuotesKeepFormat(name);
  }

  lemma DeletedQuotesKeepFormat(name: string)
    requires GetFormat(name).Some?
    ensures GetFormat(DeleteChar(name, QUOTE)) == GetFormat(name)
  {
    DeletedQuotesKeepSuffix(name, KnownSuffixOf(TrimEndMatches(name, QUOTE)));
  }

  /** The recognised suffix a detected name ends with, first in the detector's order. */
  function KnownSuffixOf(t: string): (suffix: string)
    requires HasKnownSuffix(t)
    ensures suffix in [".csv", ".json", ".log", ".txt", ".tsv"]
    ensures suffix != [] && QUOTE !in suffix && EndsWith(t, suffix)
  {
    if EndsWith(t, ".csv") then ".csv"
    else if EndsWith(t, ".json") then ".json"
    else if EndsWith(t, ".log") then ".log"
    else if EndsWith(t, ".txt") then ".txt"
    else ".tsv"
  }

  lemma DeletedQuotesKeepSuffix(name: string, suffix: string)
    requires suffix in [".csv", ".json", ".log", ".txt", ".tsv"]
    requires suffix != [] && QUOTE !in suffix
    requires EndsWith(TrimEndMatches(name, QUOTE), suffix)
    ensures GetFormat(DeleteChar(name, QUOTE)) == GetFormat(name)
  {
    StoredKeepsSuffix(name, suffix);
    var fa := SuffixDecidesFormat(DeleteChar(name, QUOTE), suffix);
    var fb := SuffixDecidesFormat(name, suffix);
  }
}
