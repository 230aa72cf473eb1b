/**
 * Case-insensitive substring search, as the search bars use it
 * (`name.lowercased().contains(query.lowercased())`). Lowercasing is
 * modelled on ASCII letters only.
 */
module Text {

  function LowerChar(c: char): char {
    if 'A' <= c <= 'Z' then (c as int + 32) as char else c
  }

  /** `s.lowercased()`, restricted to ASCII. */
  function Lowercased(s: string): (r: string)
    ensures |r| == |s|
    ensures forall i :: 0 <= i < |s| ==> r[i] == LowerChar(s[i])
  {
    if s == [] then [] else [LowerChar(s[0])] + Lowercased(s[1..])
  }

  /** `needle` occurs in `s` starting at position `i`. */
  predicate OccursAt(s: string, needle: string, i: int) {
    0 <= i <= |s| - |needle| && s[i..i + |needle|] == needle
  }

  /**
   * Foundation's `s.contains(needle)`, that is `s.range(of: needle) != nil`:
   * a non-empty `needle` occurs in `s` as a contiguous block. The empty
   * needle is found nowhere.
   */
  predicate Contains(s: string, needle: string) {
    needle != [] && exists i :: 0 <= i <= |s| - |needle| && OccursAt(s, needle, i)
  }

  /** `name.lowercased().contains(query.lowercased())`. */
  predicate MatchesIgnoringCase(name: string, query: string) {
    Contains(Lowercased(name), Lowercased(query))
  }

  /** The empty query matches no name, not even the empty one. */
  lemma EmptyQueryNeverMatches(name: string)
    ensures !MatchesIgnoringCase(name, "")
  {
    assert Lowercased("") == [];
  }

  /** A query that occurs verbatim in a name matches it whatever the case. */
  lemma VerbatimMatches(name: string, query: string)
    requires Contains(name, query)
    ensures MatchesIgnoringCase(name, query)
  {
    var i :| 0 <= i <= |name| - |query| && OccursAt(name, query, i);
    var ln, lq := Lowercased(name), Lowercased(query);
    assert ln[i..i + |query|] == lq by {
      forall k | 0 <= k < |query| ensures ln[i..i + |query|][k] == lq[k] {
        assert name[i + k] == query[k];
      }
    }
    assert OccursAt(ln, lq, i);
  }
}
