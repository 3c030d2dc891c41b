/**
 * The two string operations the search uses: `toLowerCase` (ASCII letters
 * only) and `includes` (substring test).
 */
module Text {

  predicate IsUpper(c: char) {
    'A' <= c <= 'Z'
  }

  /** Lower-cases one character; only the ASCII capitals change. */
  function Lower(c: char): (r: char)
    ensures !IsUpper(r)
    ensures !IsUpper(c) ==> r == c
  {
    if IsUpper(c) then (c as int + ('a' as int - 'A' as int)) as char else c
  }

  /** `s.toLowerCase()`, character by character. */
  function LowerStr(s: string): (r: string)
    ensures |r| == |s|
    ensures forall i :: 0 <= i < |s| ==> r[i] == Lower(s[i])
  {
    if s == [] then [] else [Lower(s[0])] + LowerStr(s[1..])
  }

  /** Lower-casing twice is lower-casing once. */
  lemma LowerStrIdempotent(s: string)
    ensures LowerStr(LowerStr(s)) == LowerStr(s)
  {
  }

  /** `t` occurs in `s` starting at position `i`. */
  predicate OccursAt(s: string, t: string, i: nat) {
    i + |t| <= |s| && s[i..i + |t|] == t
  }

  /** `s.includes(t)`: `t` is a prefix of `s` or occurs in its tail. */
  function Contains(s: string, t: string): (b: bool)
    ensures t == [] ==> b
    ensures b ==> |t| <= |s|
    decreases |s|
  {
    t <= s || (s != [] && Contains(s[1..], t))
  }

  /** `Contains` agrees with the positional definition of a substring. */
  lemma {:induction false} ContainsIffOccurs(s: string, t: string)
    ensures Contains(s, t) <==> exists i: nat :: OccursAt(s, t, i)
    decreases |s|
  {
    if t <= s {
      assert s[0..|t|] == t;
      assert OccursAt(s, t, 0);
    } else if s == [] {
      assert forall i: nat :: !OccursAt(s, t, i);
    } else {
      ContainsIffOccurs(s[1..], t);
      if Contains(s[1..], t) {
        var i: nat :| OccursAt(s[1..], t, i);
        assert s[i + 1..i + 1 + |t|] == s[1..][i..i + |t|];
        assert OccursAt(s, t, i + 1);
      } else {
        forall i: nat | OccursAt(s, t, i)
          ensures false
        {
          if i != 0 {
            assert s[1..][i - 1..i - 1 + |t|] == s[i..i + |t|];
            assert OccursAt(s[1..], t, i - 1);
          }
        }
      }
    }
  }
}
