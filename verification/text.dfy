/** String predicates and functions shared by the gateway's components. */
module Text {

  /** `s` begins with `prefix`. */
  predicate StartsWith(s: string, prefix: string) {
    |prefix| <= |s| && s[..|prefix|] == prefix
  }

  /** `pat` occurs in `s` at index `i`. */
  predicate OccursAt(s: string, pat: string, i: nat) {
    i + |pat| <= |s| && s[i..i + |pat|] == pat
  }

  /** `pat` occurs somewhere in `s` (what a regular-expression test on a literal finds). */
  ghost predicate Mentions(s: string, pat: string) {
    exists i: nat :: OccursAt(s, pat, i)
  }

  /** The chunks of a body joined in the order they were written. */
  function Concat(chunks: seq<string>): string {
    if chunks == [] then "" else chunks[0] + Concat(chunks[1..])
  }
}
