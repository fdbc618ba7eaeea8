/**
 * The two string operations the router relies on: lower-casing (`str.lower`)
 * and the substring test (`keyword in text`).
 */
module Text {

  /** True of the ASCII capital letters, the only characters lower-casing changes here. */
  predicate IsUpper(c: char)
  {
    'A' <= c <= 'Z'
  }

  /** Lower-case one character: ASCII capitals move to their small letters. */
  function LowerChar(c: char): (r: char)
    ensures !IsUpper(r)
    ensures !IsUpper(c) ==> r == c
    ensures IsUpper(c) ==> 'a' <= r <= 'z' && r as int - c as int == 'a' as int - 'A' as int
  {
    if IsUpper(c) then (c as int - 'A' as int + 'a' as int) as char else c
  }

  /** No character of `s` is a capital letter. */
  predicate IsLower(s: string)
  {
    forall i :: 0 <= i < |s| ==> !IsUpper(s[i])
  }

  /**
   * Lower-case a whole string: every capital letter becomes its small
   * letter, every other character is kept.
   */
  function Lower(s: string): (r: string)
    ensures |r| == |s| && IsLower(r)
    ensures forall i :: 0 <= i < |s| && !IsUpper(s[i]) ==> r[i] == s[i]
    ensures forall i :: 0 <= i < |s| && IsUpper(s[i]) ==> r[i] as int == s[i] as int + ('a' as int - 'A' as int)
  {
    seq(|s|, i requires 0 <= i < |s| => LowerChar(s[i]))
  }

  /** Lower-casing leaves an already lower-case string as it is. */
  lemma LowerOfLower(s: string)
    requires IsLower(s)
    ensures Lower(s) == s
  {
  }

  /** Lower-casing is idempotent: lowering twice is lowering once. */
  lemma LowerIdempotent(s: string)
    ensures Lower(Lower(s)) == Lower(s)
  {
    LowerOfLower(Lower(s));
  }

  /** `k` occurs in `s` starting at index `i`. */
  predicate OccursAt(s: string, k: string, i: int)
  {
    0 <= i && i + |k| <= |s| && s[i..i + |k|] == k
  }

  /**
   * The substring test `k in s`: `k` occurs at some index of `s`. The empty
   * string occurs in every string.
   */
  predicate Contains(s: string, k: string)
    ensures k == [] ==> Contains(s, k)
    ensures s == k ==> Contains(s, k)
    ensures Contains(s, k) ==> |k| <= |s|
  {
    // an empty `k`, or `s` itself, occurs at index 0
    assert (k == [] || s == k) ==> OccursAt(s, k, 0);
    exists i :: 0 <= i <= |s| - |k| && OccursAt(s, k, i)
  }

  /**
   * An occurrence of a non-empty `k` at `i` starts with `k`'s first character
   * and continues with an occurrence of the rest of `k` at `i + 1`.
   */
  lemma OccursAtHead(s: string, k: string, i: int)
    requires OccursAt(s, k, i) && k != []
    ensures s[i] == k[0] && OccursAt(s, k[1..], i + 1)
  {
    assert s[i..i + |k|][0] == s[i];
    assert s[i + 1..i + |k|] == s[i..i + |k|][1..];
  }

  /** A string that has a character `k` lacks cannot contain `k`. */
  lemma MissingCharExcludes(s: string, k: string, c: char)
    requires c in k && c !in s
    ensures !Contains(s, k)
  {
  }
}
