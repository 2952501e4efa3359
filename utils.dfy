/**
 * Platform directories, elapsed-time rendering, random identifiers and the
 * relative-path test (src/utils.rs). The clock, the random generator and the
 * compile-time `HOME` are parameters.
 */
module Utils {
  import opened Strings

  datatype OperatingSystem = Windows | Linux | MacOS

  /** Where data files live by default; on macOS under the `HOME` fixed at build time. */
  function DefaultDataDir(os: OperatingSystem, home: string): (dir: string)
    ensures os == Windows ==> dir == "C:\\ProgramData\\easydb"
    ensures os == Linux ==> dir == "/var/lib/easydb"
    ensures os == MacOS ==> dir == home + "/Documents/easydb"
  {
    match os
    case Windows => "C:\\ProgramData\\easydb"
    case Linux => "/var/lib/easydb"
    case MacOS => home + "/Documents/easydb"
  }

  /** The scratch directory: one Unix path shared by Linux and macOS. */
  function TmpDir(os: OperatingSystem): (dir: string)
    ensures os != Windows ==> dir == "/tmp/easydb/"
    ensures os == Windows ==> dir == "C:\\Windows\\Temp\\"
  {
    match os
    case Windows => "C:\\Windows\\Temp\\"
    case Linux => "/tmp/easydb/"
    case MacOS => "/tmp/easydb/"
  }

  /**
   * `Path::is_relative` on a Unix target: a path is relative unless it starts
   * at the root.
   */
  predicate IsRelativePath(path: string): (relative: bool)
    ensures relative <==> !StartsWith(path, "/")
  {
    !(|path| > 0 && path[0] == '/')
  }

  /**
   * `time_difference_from_now`, as a function of the elapsed time in whole
   * milliseconds (`now - input`, negative when the input lies in the future).
   * Below one second the milliseconds are shown; otherwise the seconds, the
   * minutes or the hours, whichever is the first unit that counts below 60.
   */
  function TimeDifference(millis: int): (s: string)
    ensures millis < 1000 ==> s == IntToString(millis) + "ms"
    ensures 1000 <= millis ==> exists q: nat, unit: string, size: nat ::
      TimeBucket(millis, q, unit, size) && s == NatToString(q) + unit
  {
    if millis < 1000 then IntToString(millis) + "ms"
    else
      var secs := millis / 1000;
      if secs < 60 then
        assert TimeBucket(millis, secs, "s", 1000);
        NatToString(secs) + "s"
      else if secs / 60 < 60 then
        assert TimeBucket(millis, secs / 60, "m", 60000);
        NatToString(secs / 60) + "m"
      else
        assert TimeBucket(millis, secs / 3600, "h", 3600000);
        NatToString(secs / 3600) + "h"
  }

  /**
   * `q` whole units of `size` milliseconds fit in `millis`, `unit` names that
   * size, and it is the finest of seconds and minutes whose count stays
   * below 60, or else hours, whose count is never capped.
   */
  ghost predicate TimeBucket(millis: int, q: nat, unit: string, size: nat) {
    && ((unit == "s" && size == 1000) || (unit == "m" && size == 60000) || (unit == "h" && size == 3600000))
    && 1 <= q && q * size <= millis < (q + 1) * size
    && (unit == "s" ==> millis < 60000)
    && (unit == "m" ==> 60000 <= millis < 3600000)
    && (unit == "h" ==> 3600000 <= millis)
  }

  /** The bucket is unique: at most one unit and count describe a duration. */
  lemma TimeBucketUnique(millis: int, q1: nat, u1: string, z1: nat, q2: nat, u2: string, z2: nat)
    requires TimeBucket(millis, q1, u1, z1) && TimeBucket(millis, q2, u2, z2)
    ensures q1 == q2 && u1 == u2 && z1 == z2
  {
    assert u1 == u2 && z1 == z2;
    if q1 < q2 {
      MulMonotone(q1 + 1, q2, z1);
    } else if q2 < q1 {
      MulMonotone(q2 + 1, q1, z1);
    }
  }

  lemma MulMonotone(a: nat, b: nat, z: nat)
    requires a <= b
    ensures a * z <= b * z
  {
  }

  /**
   * The k-th of the 62 symbols of the `Alphanumeric` distribution, in its
   * order: `A`-`Z`, then `a`-`z`, then `0`-`9`.
   */
  function AlphanumericAt(k: nat): (c: char)
    requires k < 62
    ensures IsAsciiAlphanumeric(c)
  {
    if k < 26 then ('A' as int + k) as char
    else if k < 52 then ('a' as int + (k - 26)) as char
    else ('0' as int + (k - 52)) as char
  }

  predicate IsAsciiAlphanumeric(c: char) {
    ('A' <= c <= 'Z') || ('a' <= c <= 'z') || ('0' <= c <= '9')
  }

  /**
   * `generate_random_string(length)`: `rng(i)` is the i-th draw of the
   * generator, reduced to an index into the alphabet.
   */
  function GenerateRandomString(length: nat, rng: nat -> nat): (s: string)
    ensures |s| == length
    ensures forall i :: 0 <= i < |s| ==> IsAsciiAlphanumeric(s[i])
    ensures forall i :: 0 <= i < |s| ==> s[i] == AlphanumericAt(rng(i) % 62)
  {
    var s := seq(length, (i: int) requires 0 <= i < length => AlphanumericAt(rng(i) % 62));
    assert forall i :: 0 <= i < |s| ==> s[i] == AlphanumericAt(rng(i) % 62) && IsAsciiAlphanumeric(s[i]);
    s
  }
}
