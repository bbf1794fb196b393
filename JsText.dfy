/** The one string operation the core relies on: `String.prototype.includes`. */
module JsText {

  /** `sub` occurs in `s` starting at position `i`. */
  predicate OccursAt(s: string, sub: string, i: int) {
    0 <= i && i + |sub| <= |s| && s[i..i + |sub|] == sub
  }

  /** `s.includes(sub)`: `sub` occurs somewhere in `s` as a contiguous run. */
  predicate Includes(s: string, sub: string) {
    exists i | 0 <= i <= |s| - |sub| :: OccursAt(s, sub, i)
  }

  /** Every string includes the empty string, so `"".includes("")` holds. */
  lemma IncludesEmpty(s: string)
    ensures Includes(s, "")
  {
    assert OccursAt(s, "", 0);
  }

  /** Nothing longer than `s` occurs in it. */
  lemma IncludesNotLonger(s: string, sub: string)
    requires |sub| > |s|
    ensures !Includes(s, sub)
  {
  }
}
