/** The string operations the filters use: `toLowerCase` and `includes`. */
module Text {

  /** Lower-case one character; only the ASCII letters A-Z are mapped. */
  function LowerChar(c: char): (r: char)
    ensures 'A' <= c <= 'Z' ==> 'a' <= r <= 'z' && r as int == c as int + 32
    ensures !('A' <= c <= 'Z') ==> r == c
  {
    if 'A' <= c <= 'Z' then (c as int + 32) as char else c
  }

  /** `s.toLowerCase()`, restricted to ASCII case mapping. */
  function Lower(s: string): (r: string)
    ensures |r| == |s|
    ensures forall i :: 0 <= i < |s| ==> r[i] == LowerChar(s[i])
  {
    if s == [] then [] else [LowerChar(s[0])] + Lower(s[1..])
  }

  /** Lower-casing twice is lower-casing once. */
  lemma LowerIdempotent(s: string)
    ensures Lower(Lower(s)) == Lower(s)
  {
    assert forall i :: 0 <= i < |s| ==> LowerChar(LowerChar(s[i])) == LowerChar(s[i]);
  }

  /** `sub` occurs in `s` at position `i`. */
  predicate OccursAt(sub: string, s: string, i: nat)
  {
    i + |sub| <= |s| && s[i..i + |sub|] == sub
  }

  /** `s.includes(sub)`: a search from the left for an occurrence of `sub`. */
  function Includes(s: string, sub: string): (r: bool)
    ensures r <==> exists i: nat :: OccursAt(sub, s, i)
    decreases |s|
  {
    if |sub| > |s| then
      assert forall i: nat :: !OccursAt(sub, s, i);
      false
    else if s[..|sub|] == sub then
      assert OccursAt(sub, s, 0);
      true
    else
      var rest := Includes(s[1..], sub);
      assert forall i: nat :: OccursAt(sub, s[1..], i) <==> OccursAt(sub, s, i + 1) by {
        forall i: nat ensures OccursAt(sub, s[1..], i) <==> OccursAt(sub, s, i + 1) {
          if i + |sub| <= |s[1..]| {
            assert s[1..][i..i + |sub|] == s[i + 1..i + 1 + |sub|];
          }
        }
      }
      assert rest ==> exists i: nat :: OccursAt(sub, s, i) by {
        if rest {
          var i: nat :| OccursAt(sub, s[1..], i);
          assert OccursAt(sub, s, i + 1);
        }
      }
      assert (exists i: nat :: OccursAt(sub, s, i)) ==> rest by {
        if exists i: nat :: OccursAt(sub, s, i) {
          var i: nat :| OccursAt(sub, s, i);
          assert i != 0;
          assert OccursAt(sub, s[1..], i - 1);
        }
      }
      rest
  }

  /** Every string includes the empty string. */
  lemma IncludesEmpty(s: string)
    ensures Includes(s, "")
  {
    assert OccursAt("", s, 0);
  }

  /** The case-insensitive search used for locations and titles. */
  predicate MatchesIgnoringCase(s: string, query: string)
  {
    Includes(Lower(s), Lower(query))
  }

  /** A non-empty query never matches an empty (or absent) field. */
  lemma EmptyFieldNeverMatches(query: string)
    requires query != ""
    ensures !MatchesIgnoringCase("", query)
  {
  }

  /** Matching ignores the case of the field: lower-casing it first changes nothing. */
  lemma MatchIgnoresFieldCase(s: string, query: string)
    ensures MatchesIgnoringCase(Lower(s), query) == MatchesIgnoringCase(s, query)
  {
    LowerIdempotent(s);
  }
}
