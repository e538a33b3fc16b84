/** The few string operations the report script relies on: `str.lower()`,
    the substring test `sub in s`, and `s.split('.')[0]`. */
module Text {

  /** ASCII case mapping, the part of `str.lower()` that the status names use. */
  function LowerChar(c: char): char
  {
    if 'A' <= c <= 'Z' then (c as int + 32) as char else c
  }

  function Lower(s: string): (r: string)
    ensures |r| == |s|
    ensures forall i :: 0 <= i < |s| ==> r[i] == LowerChar(s[i])
  {
    seq(|s|, i requires 0 <= i < |s| => LowerChar(s[i]))
  }

  /** `sub` occurs in `s` starting at position `i`. */
  predicate OccursAt(s: string, sub: string, i: nat)
  {
    i + |sub| <= |s| && s[i..i + |sub|] == sub
  }

  /** An occurrence in `s` is one at its front or one in its tail, shifted by one. */
  lemma OccursShift(s: string, sub: string)
    requires |s| > 0
    ensures (exists i :: 0 <= i <= |s| && OccursAt(s, sub, i))
        <==> OccursAt(s, sub, 0) || exists i :: 0 <= i <= |s| - 1 && OccursAt(s[1..], sub, i)
  {
    forall i | 0 <= i <= |s| - 1
      ensures OccursAt(s, sub, i + 1) <==> OccursAt(s[1..], sub, i)
    {
      if i + |sub| <= |s| - 1 {
        assert s[1..][i..i + |sub|] == s[i + 1..i + 1 + |sub|];
      }
    }
    if exists i :: 0 <= i <= |s| && OccursAt(s, sub, i) {
      var i :| 0 <= i <= |s| && OccursAt(s, sub, i);
      if i > 0 {
        assert OccursAt(s[1..], sub, i - 1);
      }
    }
  }

  /** Python's `sub in s`, scanning from the front: true exactly when `sub`
      occurs somewhere in `s` (the empty string occurs everywhere). */
  function Contains(s: string, sub: string): (b: bool)
    ensures b <==> exists i :: 0 <= i <= |s| && OccursAt(s, sub, i)
    decreases |s|
  {
    if |sub| > |s| then false
    else if s[..|sub|] == sub then assert OccursAt(s, sub, 0); true
    else
      OccursShift(s, sub);
      Contains(s[1..], sub)
  }

  /** An occurrence of an occurrence is an occurrence. */
  lemma OccursWithin(s: string, mid: string, small: string, i: nat, j: nat)
    requires OccursAt(s, mid, i) && OccursAt(mid, small, j)
    ensures OccursAt(s, small, i + j)
  {
    forall k | 0 <= k < |small|
      ensures s[i + j + k] == small[k]
    {
      assert small[k] == mid[j + k] == s[i + j + k];
    }
    assert s[i + j..i + j + |small|] == small;
  }

  /** If `s` contains `mid` and `mid` contains `small`, then `s` contains `small`. */
  lemma ContainsTransitive(s: string, mid: string, small: string)
    requires Contains(s, mid) && Contains(mid, small)
    ensures Contains(s, small)
  {
    var i :| 0 <= i <= |s| && OccursAt(s, mid, i);
    var j :| 0 <= j <= |mid| && OccursAt(mid, small, j);
    OccursWithin(s, mid, small, i, j);
  }

  /** A string in which some character of `sub` never appears does not contain `sub`. */
  lemma MissingChar(s: string, sub: string, k: nat)
    requires k < |sub| && forall i :: 0 <= i < |s| ==> s[i] != sub[k]
    ensures !Contains(s, sub)
  {
    forall i | 0 <= i <= |s|
      ensures !OccursAt(s, sub, i)
    {
      if i + |sub| <= |s| {
        assert s[i..i + |sub|][k] == s[i + k];
      }
    }
  }

  /** Python's `s.split('.')[0]`: everything before the first '.', or all of
      `s` when it has none. */
  function BeforeFirstDot(s: string): (r: string)
    ensures |r| <= |s| && r == s[..|r|]
    ensures forall i :: 0 <= i < |r| ==> r[i] != '.'
    ensures |r| == |s| || s[|r|] == '.'
  {
    if s == [] || s[0] == '.' then [] else [s[0]] + BeforeFirstDot(s[1..])
  }
}
