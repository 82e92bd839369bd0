/** Ordinal string search, as String.IndexOf(string) and String.IndexOf(char, int) behave on .NET
    when the comparison is ordinal: -1 when nothing is found, otherwise the first matching index. */
module StringSearch {

  /** `p` occurs in `s` starting at index `i`. */
  predicate OccursAt(s: string, p: string, i: int) {
    0 <= i && i + |p| <= |s| && s[i..i + |p|] == p
  }

  /** `p` occurs somewhere in `s`. */
  ghost predicate Contains(s: string, p: string) {
    exists i :: OccursAt(s, p, i)
  }

  /** `i` is the first index of `s` at which `p` occurs. */
  ghost predicate FirstOccurrence(s: string, p: string, i: int) {
    OccursAt(s, p, i) && forall j :: 0 <= j < i ==> !OccursAt(s, p, j)
  }

  /** `k` is the first index at or after `from` that holds the character `c`. */
  ghost predicate FirstCharFrom(s: string, c: char, from: int, k: int) {
    0 <= from <= k < |s| && s[k] == c && forall j :: from <= j < k ==> s[j] != c
  }

  /** `c` does not occur in `s` at or after index `from`. */
  ghost predicate NoCharFrom(s: string, c: char, from: int) {
    forall j :: from <= j < |s| && 0 <= j ==> s[j] != c
  }

  /** Index of the first occurrence of `p` in `s` at or after `from`, or -1. */
  function IndexOf(s: string, p: string, from: nat): (r: int)
    requires from <= |s|
    ensures r == -1 || (from <= r && OccursAt(s, p, r))
    ensures r == -1 ==> forall j :: from <= j ==> !OccursAt(s, p, j)
    ensures r != -1 ==> forall j :: from <= j < r ==> !OccursAt(s, p, j)
    decreases |s| - from
  {
    if OccursAt(s, p, from) then from
    else if from == |s| then -1
    else IndexOf(s, p, from + 1)
  }

  /** Index of the first `c` in `s` at or after `from`, or -1 (String.IndexOf(char, int)). */
  function IndexOfChar(s: string, c: char, from: nat): (r: int)
    requires from <= |s|
    ensures r == -1 || (from <= r < |s| && s[r] == c)
    ensures r == -1 ==> NoCharFrom(s, c, from)
    ensures r != -1 ==> forall j :: from <= j < r ==> s[j] != c
    decreases |s| - from
  {
    if from == |s| then -1
    else if s[from] == c then from
    else IndexOfChar(s, c, from + 1)
  }

  /** IndexOf finds exactly the first occurrence, and reports -1 exactly when there is none. */
  lemma IndexOfFirst(s: string, p: string)
    ensures IndexOf(s, p, 0) != -1 <==> Contains(s, p)
    ensures IndexOf(s, p, 0) != -1 ==> FirstOccurrence(s, p, IndexOf(s, p, 0))
  {
  }

  /** IndexOf from the start returns the first occurrence. */
  lemma IndexOfIsFirst(s: string, p: string, i: int)
    requires FirstOccurrence(s, p, i)
    ensures IndexOf(s, p, 0) == i
  {
  }

  /** IndexOfChar returns the first matching index at or after `from`. */
  lemma IndexOfCharIsFirst(s: string, c: char, from: nat, k: int)
    requires FirstCharFrom(s, c, from, k)
    ensures IndexOfChar(s, c, from) == k
  {
  }
}
