/**
 * The substring searches of Go's `strings` package that the crawlability
 * test uses: `strings.ContainsRune` and `strings.Contains`, defined through
 * `strings.IndexRune` and `strings.Index`.
 *
 * Go strings are UTF-8 bytes and these functions work on `seq<char>`. For
 * the ASCII needles used here ('#' and "..") whether a match exists is the
 * same in both views, because no byte of a multi-byte UTF-8 sequence is
 * ASCII; the indices differ, since here they count characters and Go counts
 * bytes.
 */
module GoStrings {

  /** True when `sub` occurs in `s` starting at index `i`. */
  predicate OccursAt(s: string, sub: string, i: int)
  {
    0 <= i && i + |sub| <= |s| && s[i..i + |sub|] == sub
  }

  /** An occurrence one place further into `s` is an occurrence in `s[1..]`. */
  lemma OccursAtTail(s: string, sub: string, i: int)
    requires |s| > 0 && 0 <= i
    ensures OccursAt(s, sub, i + 1) <==> OccursAt(s[1..], sub, i)
  {
  }

  /** `strings.IndexRune`: the first index of `c` in `s`, or -1 when there is none. */
  function IndexRune(s: string, c: char): (r: int)
    ensures -1 <= r < |s|
    ensures r >= 0 ==> s[r] == c
    ensures forall i :: 0 <= i < |s| && (r < 0 || i < r) ==> s[i] != c
  {
    if |s| == 0 then -1
    else if s[0] == c then 0
    else
      var k := IndexRune(s[1..], c);
      assert forall i :: 1 <= i < |s| ==> s[i] == s[1..][i - 1];
      if k < 0 then -1 else k + 1
  }

  /** `strings.Index`: the first index at which `sub` occurs in `s`, or -1 when it does not occur. */
  function Index(s: string, sub: string): (r: int)
    ensures -1 <= r <= |s|
    ensures r >= 0 ==> OccursAt(s, sub, r)
    ensures forall i :: 0 <= i && (r < 0 || i < r) ==> !OccursAt(s, sub, i)
  {
    if |s| < |sub| then -1
    else if s[..|sub|] == sub then 0
    else
      var k := Index(s[1..], sub);
      assert forall i :: 1 <= i ==> (OccursAt(s, sub, i) <==> OccursAt(s[1..], sub, i - 1)) by {
        forall i | 1 <= i ensures OccursAt(s, sub, i) <==> OccursAt(s[1..], sub, i - 1) {
          OccursAtTail(s, sub, i - 1);
        }
      }
      assert !OccursAt(s, sub, 0);
      if k < 0 then -1 else k + 1
  }

  /** `strings.ContainsRune`: `c` occurs somewhere in `s`. */
  function ContainsRune(s: string, c: char): (r: bool)
    ensures r <==> exists i :: 0 <= i < |s| && s[i] == c
  {
    IndexRune(s, c) >= 0
  }

  /** `strings.Contains`: `sub` occurs somewhere in `s`. */
  function Contains(s: string, sub: string): (r: bool)
    ensures r <==> exists i :: OccursAt(s, sub, i)
  {
    Index(s, sub) >= 0
  }
}
