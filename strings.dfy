/** String facts shared by the two handlers. */
module Strings {

  /** `sub` occurs in `s` at position `i`. */
  ghost predicate OccursAt(s: string, sub: string, i: int)
  {
    0 <= i <= |s| - |sub| && s[i..i + |sub|] == sub
  }

  /** Python's `sub in s` on two strings: substring containment, by scanning `s` left to right. */
  function Contains(s: string, sub: string): (b: bool)
    ensures b <==> exists i :: OccursAt(s, sub, i)
  {
    if |sub| > |s| then false
    else if s[..|sub|] == sub then
      assert OccursAt(s, sub, 0);
      true
    else
      OccursAfterHead(s, sub);
      Contains(s[1..], sub)
  }

  /** When `sub` is not a prefix of `s`, it occurs in `s` exactly when it occurs in `s[1..]`. */
  lemma OccursAfterHead(s: string, sub: string)
    requires |sub| <= |s| && s[..|sub|] != sub
    ensures (exists i :: OccursAt(s, sub, i)) <==> (exists i :: OccursAt(s[1..], sub, i))
  {
    forall i | OccursAt(s[1..], sub, i) ensures OccursAt(s, sub, i + 1) {
      assert s[i + 1..i + 1 + |sub|] == s[1..][i..i + |sub|];
    }
    forall i | OccursAt(s, sub, i) ensures i > 0 && OccursAt(s[1..], sub, i - 1) {
      assert i != 0 by {
        assert s[..|sub|] == s[0..|sub|];
      }
      assert s[1..][i - 1..i - 1 + |sub|] == s[i..i + |sub|];
    }
  }

  /** Joining two parts with a separator that the first part never contains loses nothing:
      the parts can be read back from the joined string. */
  lemma {:induction false} JoinInjective(a1: string, b1: string, a2: string, b2: string, sep: char)
    requires sep !in a1 && sep !in a2
    requires a1 + [sep] + b1 == a2 + [sep] + b2
    ensures a1 == a2 && b1 == b2
  {
    var j1, j2 := a1 + [sep] + b1, a2 + [sep] + b2;
    assert forall k | 0 <= k < |a1| :: j1[k] == a1[k];
    assert forall k | 0 <= k < |a2| :: j2[k] == a2[k];
    assert j1[|a1|] == sep && j2[|a2|] == sep;
    assert |a1| == |a2|;
    assert a1 == j1[..|a1|] && a2 == j2[..|a2|];
    assert b1 == j1[|a1| + 1..] && b2 == j2[|a2| + 1..];
  }
}
