/**
 * Pieces of Go's RE2 regular-expression syntax that the model's patterns
 * use, written out as predicates over positions.
 */
module GoRegexp {

  /** `\s` in Go's regexp: `[\t\n\f\r ]`. */
  predicate ReSpace(c: char) {
    c == '\t' || c == '\n' || c == '\U{000C}' || c == '\r' || c == ' '
  }

  /** End of the maximal run of regexp spaces starting at i. */
  function SpaceEnd(s: string, i: nat): (e: nat)
    requires i <= |s|
    ensures i <= e <= |s|
    ensures forall k :: i <= k < e ==> ReSpace(s[k])
    ensures e < |s| ==> !ReSpace(s[e])
    decreases |s| - i
  {
    if i < |s| && ReSpace(s[i]) then SpaceEnd(s, i + 1) else i
  }

  lemma SpaceEndAt(s: string, i: nat, e: nat)
    requires i <= e <= |s|
    requires forall k :: i <= k < e ==> ReSpace(s[k])
    requires e < |s| ==> !ReSpace(s[e])
    ensures SpaceEnd(s, i) == e
    decreases e - i
  {
    if i < e {
      SpaceEndAt(s, i + 1, e);
    }
  }
}
