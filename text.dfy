/**
 * Case-insensitive comparison of strings, as used by the view model's
 * content-type check, the body adapter's search and SQLite's LIKE.
 * Only ASCII letters are folded.
 */
module Text {

  /** Maps an ASCII upper-case letter to its lower-case form; every other character is kept. */
  function LowerAscii(c: char): (r: char)
    ensures 'A' <= c <= 'Z' ==> 'a' <= r <= 'z'
    ensures !('A' <= c <= 'Z') ==> r == c
  {
    if 'A' <= c <= 'Z' then (c as int + ('a' as int - 'A' as int)) as char else c
  }

  predicate SameIgnoringCase(a: char, b: char) {
    LowerAscii(a) == LowerAscii(b)
  }

  predicate EqualsIgnoreCase(a: string, b: string) {
    |a| == |b| && forall i :: 0 <= i < |a| ==> SameIgnoringCase(a[i], b[i])
  }

  predicate StartsWithIgnoreCase(s: string, prefix: string) {
    |prefix| <= |s| && EqualsIgnoreCase(s[..|prefix|], prefix)
  }

  /** Kotlin's `s.contains(query, ignoreCase = true)`. */
  predicate ContainsIgnoreCase(s: string, query: string) {
    exists i :: 0 <= i <= |s| && StartsWithIgnoreCase(s[i..], query)
  }

  /** Containment ignoring case does not depend on the letter case of the searched text. */
  lemma ContainsIgnoresCaseOfText(s1: string, s2: string, query: string)
    requires EqualsIgnoreCase(s1, s2)
    ensures ContainsIgnoreCase(s1, query) ==> ContainsIgnoreCase(s2, query)
  {
    if ContainsIgnoreCase(s1, query) {
      var i :| 0 <= i <= |s1| && StartsWithIgnoreCase(s1[i..], query);
      forall k | 0 <= k < |query| ensures SameIgnoringCase(s2[i..][..|query|][k], query[k]) {
        assert s1[i..][..|query|][k] == s1[i + k] && s2[i..][..|query|][k] == s2[i + k];
        assert SameIgnoringCase(s1[i + k], s2[i + k]);
      }
      assert StartsWithIgnoreCase(s2[i..], query);
    }
  }

  /** Every string contains the empty string. */
  lemma ContainsEmpty(s: string)
    ensures ContainsIgnoreCase(s, "")
  {
    assert StartsWithIgnoreCase(s[0..], "");
  }

  /** A string that contains a query is at least as long as the query. */
  lemma ContainsNeedsRoom(s: string, query: string)
    requires ContainsIgnoreCase(s, query)
    ensures |query| <= |s|
  {
    var i :| 0 <= i <= |s| && StartsWithIgnoreCase(s[i..], query);
  }
}
