/**
 * Path handling of the writer: the fixed directory separator and PHP's
 * `rtrim($path, '\\/')`, which removes every trailing `/` and `\`.
 */
module Paths {

  /** DIRECTORY_SEPARATOR, fixed to the POSIX value. */
  const DirectorySeparator: char := '/'

  /** The two characters in the `rtrim` character list `'\\/'`. */
  predicate IsSeparator(c: char) {
    c == '/' || c == '\\'
  }

  /** A path that is empty or whose last character is not a separator. */
  predicate HasNoTrailingSeparator(p: string) {
    p == [] || !IsSeparator(p[|p| - 1])
  }

  /**
   * `rtrim(s, '\\/')`: the prefix of `s` left once every trailing separator
   * is removed. Only trailing characters go: what is kept is a prefix of `s`,
   * and everything cut off is a separator.
   */
  function TrimTrailingSeparators(s: string): (r: string)
    ensures |r| <= |s| && r == s[..|r|]
    ensures HasNoTrailingSeparator(r)
    ensures forall i :: |r| <= i < |s| ==> IsSeparator(s[i])
  {
    if s != [] && IsSeparator(s[|s| - 1]) then TrimTrailingSeparators(s[..|s| - 1]) else s
  }

  /**
   * The trimmed path is the longest prefix that does not end in a separator:
   * any prefix with no trailing separator, beyond which only separators
   * follow, is exactly the trimmed path.
   */
  lemma TrimIsLongestClean(s: string, p: string)
    requires |p| <= |s| && p == s[..|p|]
    requires HasNoTrailingSeparator(p)
    requires forall i :: |p| <= i < |s| ==> IsSeparator(s[i])
    ensures p == TrimTrailingSeparators(s)
  {
  }

  /** Trimming a second time changes nothing. */
  lemma TrimIdempotent(s: string)
    ensures TrimTrailingSeparators(TrimTrailingSeparators(s)) == TrimTrailingSeparators(s)
  {
  }

  /** Appending any run of separators to a path leaves its trimmed form unchanged. */
  lemma {:induction false} TrimAppendsSeparators(s: string, tail: string)
    requires forall i :: 0 <= i < |tail| ==> IsSeparator(tail[i])
    ensures TrimTrailingSeparators(s + tail) == TrimTrailingSeparators(s)
  {
    if tail != [] {
      var t := tail[..|tail| - 1];
      assert IsSeparator((s + tail)[|s + tail| - 1]);
      assert (s + tail)[..|s + tail| - 1] == s + t;
      TrimAppendsSeparators(s, t);
    } else {
      assert s + tail == s;
    }
  }
}
