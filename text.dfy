/** String helpers shared by the queries and the upload filter. */
module Text {

  /** `q` occurs in `s` starting at index `i`. */
  predicate OccursAt(s: string, q: string, i: int)
  {
    0 <= i && i + |q| <= |s| && s[i..i + |q|] == q
  }

  /** Unanchored substring test: SQL `LIKE '%q%'` (without case folding or
      wildcards inside `q`) and an unanchored regular-expression alternative. */
  predicate Contains(s: string, q: string)
  {
    exists i | 0 <= i <= |s| :: OccursAt(s, q, i)
  }

  /** A string that contains `q` keeps containing it with text around it. */
  lemma ContainsWithin(before: string, s: string, after: string, q: string)
    requires Contains(s, q)
    ensures Contains(before + s + after, q)
  {
    var i :| 0 <= i <= |s| && OccursAt(s, q, i);
    var whole := before + s + after;
    assert whole[|before| + i..|before| + i + |q|] == s[i..i + |q|];
    assert OccursAt(whole, q, |before| + i);
  }

  /** SQL `s LIKE '%q%'`: SQLite's LIKE ignores the case of ASCII letters. It matches
      exactly when the pattern lines up, character by character and up to case, with
      some stretch of the string; a pattern longer than the string never matches. */
  predicate Like(s: string, q: string)
    ensures Like(s, q) <==> exists i :: MatchesAt(s, q, i)
    ensures Like(s, q) ==> |q| <= |s|
  {
    LowerOccursAt(s, q);
    Contains(Lower(s), Lower(q))
  }

  /** Each character of `q` equals, up to ASCII case, the one of `s` under it when `q`
      is laid over `s` at index `i`. */
  predicate MatchesAt(s: string, q: string, i: int)
  {
    0 <= i && i + |q| <= |s| && forall k :: 0 <= k < |q| ==> LowerChar(s[i + k]) == LowerChar(q[k])
  }

  /** The lower-cased pattern occurs in the lower-cased string exactly where the two
      agree character by character up to case. */
  lemma LowerOccursAt(s: string, q: string)
    ensures Contains(Lower(s), Lower(q)) <==> exists i :: MatchesAt(s, q, i)
  {
    forall i | 0 <= i <= |s| ensures OccursAt(Lower(s), Lower(q), i) <==> MatchesAt(s, q, i) {
      if OccursAt(Lower(s), Lower(q), i) {
        forall k | 0 <= k < |q| ensures LowerChar(s[i + k]) == LowerChar(q[k]) {
          assert Lower(s)[i..i + |q|][k] == Lower(q)[k];
        }
      }
      if MatchesAt(s, q, i) {
        assert Lower(s)[i..i + |q|] == Lower(q);
      }
    }
    if i :| MatchesAt(s, q, i) {
      assert OccursAt(Lower(s), Lower(q), i);
    }
  }

  /** Lower-casing either side does not change whether LIKE matches. */
  lemma LikeIgnoresCase(s: string, q: string)
    ensures Like(Lower(s), q) == Like(s, q) == Like(s, Lower(q))
  {
    assert Lower(Lower(s)) == Lower(s);
    assert Lower(Lower(q)) == Lower(q);
  }

  /** The empty pattern `'%%'` matches every string. */
  lemma LikeEmpty(s: string)
    ensures Like(s, "")
  {
    assert OccursAt(Lower(s), Lower(""), 0);
  }

  /** A string matches a pattern it contains literally. */
  lemma {:induction false} LikeSelf(s: string)
    ensures Like(s, s)
  {
    assert OccursAt(Lower(s), Lower(s), 0);
  }

  function LowerChar(c: char): char
  {
    if 'A' <= c <= 'Z' then (c as int + 32) as char else c
  }

  /** `String.prototype.toLowerCase` restricted to the ASCII letters. */
  function Lower(s: string): (r: string)
    ensures |r| == |s|
    ensures forall i :: 0 <= i < |s| ==> r[i] == LowerChar(s[i])
  {
    seq(|s|, i requires 0 <= i < |s| => LowerChar(s[i]))
  }

  /** Index of the last '.' in `s`, or -1 when there is none. */
  function LastDot(s: string): (r: int)
    ensures -1 <= r < |s|
    ensures 0 <= r ==> s[r] == '.'
    ensures forall j :: r < j < |s| ==> s[j] != '.'
  {
    if s == [] then -1
    else if s[|s| - 1] == '.' then |s| - 1
    else LastDot(s[..|s| - 1])
  }
}
