/** The string operations the pipeline relies on: `str.join`, `startswith`, `endswith`. */
module Strings {

  /** The separator placed between translated chunks when a file is reassembled. */
  const ChunkSeparator: string := "\n\n"

  /** `sep.join(parts)`. */
  function Join(parts: seq<string>, sep: string): string
  {
    if |parts| == 0 then ""
    else if |parts| == 1 then parts[0]
    else parts[0] + sep + Join(parts[1..], sep)
  }

  /** The sum of the lengths of `parts`. */
  function TotalLength(parts: seq<string>): nat
  {
    if |parts| == 0 then 0 else |parts[0]| + TotalLength(parts[1..])
  }

  predicate StartsWith(s: string, prefix: string) {
    prefix <= s
  }

  predicate EndsWith(s: string, suffix: string) {
    |suffix| <= |s| && s[|s| - |suffix|..] == suffix
  }

  /** Joining no parts gives the empty string; joining one part gives that part unchanged. */
  lemma JoinSmall(sep: string, c: string)
    ensures Join([], sep) == ""
    ensures Join([c], sep) == c
  {
  }

  /**
   * Exactly one separator stands between any two consecutive parts: cutting
   * the list anywhere splits the joined string around a single `sep`.
   */
  lemma {:induction false} JoinSplit(parts: seq<string>, sep: string, k: nat)
    requires 0 < k < |parts|
    ensures Join(parts, sep) == Join(parts[..k], sep) + sep + Join(parts[k..], sep)
  {
    if k == 1 {
      assert parts[..1] == [parts[0]];
      assert parts[1..] == parts[k..];
    } else {
      var tail := parts[1..];
      JoinSplit(tail, sep, k - 1);
      assert tail[..k - 1] == parts[1..k];
      assert tail[k - 1..] == parts[k..];
      assert parts[..k][1..] == parts[1..k];
    }
  }

  /** A join of k >= 1 parts is as long as the parts together plus k - 1 separators. */
  lemma {:induction false} JoinLength(parts: seq<string>, sep: string)
    requires |parts| > 0
    ensures |Join(parts, sep)| == TotalLength(parts) + |sep| * (|parts| - 1)
  {
    if |parts| == 1 {
      assert TotalLength(parts[1..]) == 0;
    } else {
      JoinLength(parts[1..], sep);
    }
  }
}
