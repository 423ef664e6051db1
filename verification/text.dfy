/**
 * String helpers shared by the text parsers: splitting on a separator with
 * empty parts kept (Python's str.split(sep) and Qt's QString::split(sep)),
 * Python's slicing with negative bounds, str.strip(), ASCII upper-casing,
 * and truncation to a fixed C buffer.
 */
module Text {

  /** Splits `s` at every `sep`; empty parts are kept, so there is always one more part than separators. */
  function Split(s: string, sep: char): (parts: seq<string>)
    ensures |parts| == Count(s, sep) + 1
    ensures forall i :: 0 <= i < |parts| ==> sep !in parts[i]
  {
    if s == [] then [[]]
    else
      var rest := Split(s[1..], sep);
      if s[0] == sep then [[]] + rest
      else [[s[0]] + rest[0]] + rest[1..]
  }

  /** Number of occurrences of `c` in `s`. */
  function Count(s: string, c: char): nat {
    if s == [] then 0 else (if s[0] == c then 1 else 0) + Count(s[1..], c)
  }

  /** Joins the parts with `sep` between consecutive parts. */
  function Join(parts: seq<string>, sep: char): string
    requires |parts| >= 1
  {
    if |parts| == 1 then parts[0] else parts[0] + [sep] + Join(parts[1..], sep)
  }

  /** Splitting loses nothing: joining the parts back gives the original text. */
  lemma {:induction false} JoinSplit(s: string, sep: char)
    ensures Join(Split(s, sep), sep) == s
  {
    if s != [] {
      JoinSplit(s[1..], sep);
      var rest := Split(s[1..], sep);
      if s[0] == sep {
        assert Split(s, sep)[1..] == rest;
      } else {
        var parts := Split(s, sep);
        if |rest| == 1 {
          assert parts == [[s[0]] + rest[0]];
        } else {
          assert parts[1..] == rest[1..];
          assert Join(parts, sep) == [s[0]] + rest[0] + [sep] + Join(rest[1..], sep);
        }
      }
    }
  }

  /** Index of the first `c` in `s`, or |s| when there is none (Python's str.index/find). */
  function IndexOf(s: string, c: char): (i: nat)
    ensures i <= |s|
    ensures i < |s| ==> s[i] == c
    ensures forall j :: 0 <= j < i ==> s[j] != c
  {
    if s == [] then 0 else if s[0] == c then 0 else 1 + IndexOf(s[1..], c)
  }

  /** Python's s[:k], where a negative k counts from the end and bounds saturate. */
  function PySliceTo(s: string, k: int): (r: string)
    ensures |r| <= |s| && r == s[..|r|]
    ensures 0 <= k ==> |r| == if k < |s| then k else |s|
    ensures k < 0 ==> |r| == if |s| + k < 0 then 0 else |s| + k
  {
    var n := if k < 0 then |s| + k else k;
    if n < 0 then [] else if n > |s| then s else s[..n]
  }

  /** Python's s[k:], where a negative k counts from the end and bounds saturate. */
  function PySliceFrom(s: string, k: int): (r: string)
    ensures |r| <= |s| && r == s[|s| - |r|..]
    ensures 0 <= k ==> |r| == if k < |s| then |s| - k else 0
    ensures k < 0 ==> |r| == if |s| + k < 0 then |s| else -k
  {
    var n := if k < 0 then |s| + k else k;
    if n < 0 then s else if n > |s| then [] else s[n..]
  }

  /** The characters CPython's str.isspace() accepts among code points 0..255. */
  predicate IsSpace(c: char) {
    var n := c as int;
    (9 <= n <= 13) || (28 <= n <= 32) || n == 0x85 || n == 0xA0
  }

  /** The characters MicroPython's str.strip() removes: ASCII whitespace only. */
  predicate IsAsciiSpace(c: char) {
    var n := c as int;
    (9 <= n <= 13) || n == 32
  }

  /** Number of leading characters satisfying `space`. */
  function LeadingSpace(s: string, space: char -> bool): (n: nat)
    ensures n <= |s|
    ensures forall j :: 0 <= j < n ==> space(s[j])
    ensures n < |s| ==> !space(s[n])
  {
    if s == [] || !space(s[0]) then 0 else 1 + LeadingSpace(s[1..], space)
  }

  /** Number of trailing characters satisfying `space`. */
  function TrailingSpace(s: string, space: char -> bool): (n: nat)
    ensures n <= |s|
    ensures forall j :: |s| - n <= j < |s| ==> space(s[j])
    ensures n < |s| ==> !space(s[|s| - n - 1])
  {
    if s == [] || !space(s[|s| - 1]) then 0 else 1 + TrailingSpace(s[..|s| - 1], space)
  }

  /**
   * str.strip() for the interpreter whose whitespace is `space`: the longest
   * middle part of `s` that neither starts nor ends with whitespace, with
   * only whitespace cut away on either side.
   */
  function Strip(s: string, space: char -> bool): (r: string)
    ensures |r| <= |s|
    ensures r != [] ==> !space(r[0]) && !space(r[|r| - 1])
    ensures LeadingSpace(s, space) + |r| <= |s| && r == s[LeadingSpace(s, space)..LeadingSpace(s, space) + |r|]
    ensures forall j :: LeadingSpace(s, space) + |r| <= j < |s| ==> space(s[j])
  {
    var lo := LeadingSpace(s, space);
    var hi := |s| - TrailingSpace(s, space);
    if hi <= lo then [] else s[lo..hi]
  }

  /** Upper-cases the ASCII letters a..z and leaves every other character alone. */
  function AsciiUpper(s: string): (r: string)
    ensures |r| == |s|
    ensures forall i {:trigger r[i]} :: 0 <= i < |s| ==> r[i] == if 'a' <= s[i] <= 'z' then s[i] - 'a' + 'A' else s[i]
  {
    if s == [] then []
    else [if 'a' <= s[0] <= 'z' then s[0] - 'a' + 'A' else s[0]] + AsciiUpper(s[1..])
  }

  /** The first n characters of s (a C string cut to fit a buffer of n + 1 bytes). */
  function Truncate(s: string, n: nat): (r: string)
    ensures |r| <= n && |r| <= |s| && r == s[..|r|]
    ensures |s| <= n ==> r == s
    ensures |s| > n ==> |r| == n
  {
    if |s| <= n then s else s[..n]
  }

  /** Whether `p` is a prefix of `s` (Python str.startswith / QString::startsWith). */
  predicate StartsWith(s: string, p: string) {
    |p| <= |s| && s[..|p|] == p
  }
}
