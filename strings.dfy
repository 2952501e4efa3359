/**
 * The handful of Rust `str` operations the core relies on, over `seq<char>`:
 * `ends_with`, `starts_with`, `trim_end_matches`, `replace` and the decimal
 * rendering that `format!("{}", n)` performs.
 */
module Strings {

  predicate StartsWith(s: string, prefix: string) {
    |prefix| <= |s| && s[..|prefix|] == prefix
  }

  predicate EndsWith(s: string, suffix: string) {
    |suffix| <= |s| && s[|s| - |suffix|..] == suffix
  }

  /** `pat` occurs somewhere in `s`. */
  predicate Occurs(s: string, pat: string)
    decreases |s|
  {
    StartsWith(s, pat) || (|s| > 0 && Occurs(s[1..], pat))
  }

  /** `s.trim_end_matches(c)`: every trailing `c` removed, nothing else. */
  function TrimEndMatches(s: string, c: char): (t: string)
    ensures |t| <= |s| && t == s[..|t|]
    ensures t == [] || t[|t| - 1] != c
  {
    if s == [] || s[|s| - 1] != c then s else TrimEndMatches(s[..|s| - 1], c)
  }

  /** What `trim_end_matches` removes is a run of the trimmed character. */
  lemma {:induction false} TrimmedTailIsRun(s: string, c: char)
    ensures var t := TrimEndMatches(s, c);
      forall i :: |t| <= i < |s| ==> s[i] == c
    decreases |s|
  {
    if s != [] && s[|s| - 1] == c {
      TrimmedTailIsRun(s[..|s| - 1], c);
    }
  }

  /**
   * `s.replace(pat, rep)`: scans left to right and replaces every
   * non-overlapping occurrence of `pat`. An empty `pat` matches at every
   * character boundary, as in Rust.
   */
  function ReplaceAll(s: string, pat: string, rep: string): (r: string)
    ensures pat != [] && !Occurs(s, pat) ==> r == s
    decreases |s|
  {
    if pat == [] then
      if s == [] then rep else rep + [s[0]] + ReplaceAll(s[1..], pat, rep)
    else if |s| < |pat| then s
    else if s[..|pat|] == pat then rep + ReplaceAll(s[|pat|..], pat, rep)
    else
      assert s == [s[0]] + s[1..];
      [s[0]] + ReplaceAll(s[1..], pat, rep)
  }

  /**
   * The leftmost occurrence is replaced and the scan resumes after it: when
   * no occurrence of `pat` starts inside `a`, the first one in `a + pat + b`
   * is the one after `a`.
   */
  lemma ReplaceFirstOccurrence(a: string, pat: string, rep: string, b: string)
    requires pat != [] && !Occurs(a + pat[..|pat| - 1], pat)
    ensures ReplaceAll(a + pat + b, pat, rep) == a + rep + ReplaceAll(b, pat, rep)
  {
    ReplaceFirstAt(a + pat + b, a, pat, rep, b);
  }

  lemma {:induction false} ReplaceFirstAt(s: string, a: string, pat: string, rep: string, b: string)
    requires s == a + pat + b
    requires pat != [] && !Occurs(a + pat[..|pat| - 1], pat)
    ensures ReplaceAll(s, pat, rep) == a + rep + ReplaceAll(b, pat, rep)
    decreases |a|
  {
    if a == [] {
      assert s == pat + b;
      ReplaceAtStart(pat, rep, b);
    } else {
      NoMatchBeforeOccurrence(s, a, pat, b);
      ReplaceFirstAt(s[1..], a[1..], pat, rep, b);
      ReplaceSkipsChar(s, pat, rep);
      ConsSplit(a, rep, ReplaceAll(b, pat, rep));
    }
  }

  /** With no match starting inside a non-empty `a`, none starts at its first character either. */
  lemma NoMatchBeforeOccurrence(s: string, a: string, pat: string, b: string)
    requires s == a + pat + b
    requires a != [] && pat != [] && !Occurs(a + pat[..|pat| - 1], pat)
    ensures |pat| <= |s| && s[..|pat|] != pat
    ensures s[0] == a[0] && s[1..] == a[1..] + pat + b
    ensures !Occurs(a[1..] + pat[..|pat| - 1], pat)
  {
    var lead := a + pat[..|pat| - 1];
    NotOccursSplit(lead, pat);
    LeadIsPrefix(s, a, pat, b);
    NoMatchAtFront(s, lead, pat);
    DropFirst(s, a, pat + b);
    DropFirst(lead, a, pat[..|pat| - 1]);
  }

  lemma NotOccursSplit(s: string, pat: string)
    requires s != [] && !Occurs(s, pat)
    ensures !StartsWith(s, pat) && !Occurs(s[1..], pat)
  {
  }

  lemma LeadIsPrefix(s: string, a: string, pat: string, b: string)
    requires s == a + pat + b && pat != []
    ensures a + pat[..|pat| - 1] == s[..|a| + |pat| - 1]
    ensures s == a + (pat + b)
  {
  }

  lemma NoMatchAtFront(s: string, lead: string, pat: string)
    requires |pat| <= |lead| <= |s| && lead == s[..|lead|] && !StartsWith(lead, pat)
    ensures s[..|pat|] != pat
  {
    assert s[..|pat|] == lead[..|pat|];
  }

  lemma DropFirst(s: string, a: string, x: string)
    requires s == a + x && a != []
    ensures s[0] == a[0] && s[1..] == a[1..] + x
  {
  }

  /** A position where `pat` does not start keeps its character. */
  lemma ReplaceSkipsChar(s: string, pat: string, rep: string)
    requires pat != [] && |pat| <= |s| && s[..|pat|] != pat
    ensures ReplaceAll(s, pat, rep) == [s[0]] + ReplaceAll(s[1..], pat, rep)
  {
  }

  lemma ConsSplit(a: string, x: string, y: string)
    requires a != []
    ensures a + x + y == [a[0]] + (a[1..] + x + y)
  {
    assert a == [a[0]] + a[1..];
  }

  lemma ReplaceAtStart(pat: string, rep: string, b: string)
    requires pat != []
    ensures ReplaceAll(pat + b, pat, rep) == rep + ReplaceAll(b, pat, rep)
  {
    var s := pat + b;
    assert s[..|pat|] == pat && s[|pat|..] == b;
  }

  /** `s` with every `c` deleted. */
  function DeleteChar(s: string, c: char): (r: string)
    ensures c !in r && |r| <= |s|
    decreases |s|
  {
    if s == [] then [] else (if s[0] == c then [] else [s[0]]) + DeleteChar(s[1..], c)
  }

  /** `s.replace(c, "")` for a one-character pattern deletes every `c`. */
  lemma {:induction false} ReplaceCharIsDelete(s: string, c: char)
    ensures ReplaceAll(s, [c], []) == DeleteChar(s, c)
    decreases |s|
  {
    if s != [] {
      ReplaceCharIsDelete(s[1..], c);
      if s[0] == c {
        assert s[..1] == [c];
        assert s[|[c]|..] == s[1..];
      } else {
        assert s[..1] != [c];
      }
    }
  }

  lemma {:induction false} DeleteCharAppend(s: string, t: string, c: char)
    ensures DeleteChar(s + t, c) == DeleteChar(s, c) + DeleteChar(t, c)
    decreases |s|
  {
    if s == [] {
      assert s + t == t;
    } else {
      assert (s + t)[1..] == s[1..] + t;
      DeleteCharAppend(s[1..], t, c);
    }
  }

  /** A text free of `c` is left as it is. */
  lemma {:induction false} DeleteCharAbsent(s: string, c: char)
    requires c !in s
    ensures DeleteChar(s, c) == s
    decreases |s|
  {
    if s != [] {
      assert s == [s[0]] + s[1..];
      DeleteCharAbsent(s[1..], c);
    }
  }

  /** A run of `c` disappears. */
  lemma {:induction false} DeleteCharRun(s: string, c: char)
    requires forall i :: 0 <= i < |s| ==> s[i] == c
    ensures DeleteChar(s, c) == []
    decreases |s|
  {
    if s != [] {
      DeleteCharRun(s[1..], c);
    }
  }

  predicate IsDigit(c: char) {
    '0' <= c <= '9'
  }

  function DigitChar(d: nat): (c: char)
    requires d < 10
    ensures IsDigit(c) && c as int - '0' as int == d
  {
    ['0', '1', '2', '3', '4', '5', '6', '7', '8', '9'][d]
  }

  /** `format!("{}", n)` for a non-negative integer: decimal, no leading zeros. */
  function NatToString(n: nat): (s: string)
    ensures |s| > 0 && forall i :: 0 <= i < |s| ==> IsDigit(s[i])
    ensures |s| > 1 ==> s[0] != '0'
    decreases n
  {
    if n < 10 then [DigitChar(n)] else NatToString(n / 10) + [DigitChar(n % 10)]
  }

  /** `format!("{}", i)` for any integer: a minus sign before negative values. */
  function IntToString(i: int): (s: string)
    ensures |s| > 0
    ensures i >= 0 ==> forall k :: 0 <= k < |s| ==> IsDigit(s[k])
    ensures i < 0 ==> s[0] == '-'
  {
    if i < 0 then "-" + NatToString(-i) else NatToString(i)
  }

  /** Reads a non-empty run of decimal digits back as a number. */
  function ParseDecimal(s: string): nat
    requires forall i :: 0 <= i < |s| ==> IsDigit(s[i])
    decreases |s|
  {
    if s == [] then 0
    else
      assert IsDigit(s[|s| - 1]);
      ParseDecimal(s[..|s| - 1]) * 10 + (s[|s| - 1] as int - '0' as int)
  }

  /** The decimal rendering is read back as the same number. */
  lemma {:induction false} ParseNatToString(n: nat)
    ensures ParseDecimal(NatToString(n)) == n
    decreases n
  {
    if n >= 10 {
      var s := NatToString(n);
      assert s[..|s| - 1] == NatToString(n / 10);
      ParseNatToString(n / 10);
    }
  }

  /** Distinct numbers have distinct renderings. */
  lemma NatToStringInjective(m: nat, n: nat)
    requires NatToString(m) == NatToString(n)
    ensures m == n
  {
    ParseNatToString(m);
    ParseNatToString(n);
  }
}
