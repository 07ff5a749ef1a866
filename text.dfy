/** Python's substring test `needle in haystack` on strings. */
module Text {

  /** `needle` occurs in `haystack` as a contiguous run of characters. */
  ghost predicate IsSubstring(needle: string, haystack: string) {
    exists k :: 0 <= k <= |haystack| && needle <= haystack[k..]
  }

  /** When `needle` is not a prefix, it occurs in `haystack` iff it occurs in its tail. */
  lemma SubstringOfTail(needle: string, haystack: string)
    requires haystack != [] && !(needle <= haystack)
    ensures IsSubstring(needle, haystack) <==> IsSubstring(needle, haystack[1..])
  {
    if IsSubstring(needle, haystack) {
      var k :| 0 <= k <= |haystack| && needle <= haystack[k..];
      assert k != 0 by {
        assert haystack[0..] == haystack;
      }
      assert haystack[1..][k - 1..] == haystack[k..];
    }
    if IsSubstring(needle, haystack[1..]) {
      var k :| 0 <= k <= |haystack[1..]| && needle <= haystack[1..][k..];
      assert haystack[1..][k..] == haystack[k + 1..];
    }
  }

  /** Decides `needle in haystack` by trying every starting position in turn. */
  function Contains(haystack: string, needle: string): (r: bool)
    ensures r <==> IsSubstring(needle, haystack)
    decreases |haystack|
  {
    if needle <= haystack then
      assert haystack[0..] == haystack;
      true
    else if haystack == [] then
      false
    else
      SubstringOfTail(needle, haystack);
      Contains(haystack[1..], needle)
  }
}
