/** Substring search and replacement on strings, as Python's `in` operator on
    two strings and `str.replace` compute them. The recursive definitions are
    the ones the model runs; the lemmas tie them to the slice-based meaning. */
module Strings {

  /** `sub` occurs in `s` starting at index `i` (the meaning of a match). */
  predicate OccursAt(s: string, sub: string, i: int)
  {
    0 <= i && i + |sub| <= |s| && s[i..i + |sub|] == sub
  }

  /** Characters `k..` of `sub` agree with `s` from index `i + k` on. */
  predicate MatchesFrom(s: string, sub: string, i: nat, k: nat)
    requires i + |sub| <= |s| && k <= |sub|
    decreases |sub| - k
  {
    k == |sub| || (s[i + k] == sub[k] && MatchesFrom(s, sub, i, k + 1))
  }

  /** Some occurrence of `sub` in `s` starts at or after index `i`. */
  predicate ContainsFrom(s: string, sub: string, i: nat)
    decreases |s| - i
  {
    i + |sub| <= |s| && (MatchesFrom(s, sub, i, 0) || ContainsFrom(s, sub, i + 1))
  }

  /** Python's `sub in s` for two strings. */
  predicate Contains(s: string, sub: string)
  {
    ContainsFrom(s, sub, 0)
  }

  lemma {:induction false} MatchesFromIff(s: string, sub: string, i: nat, k: nat)
    requires i + |sub| <= |s| && k <= |sub|
    ensures MatchesFrom(s, sub, i, k) <==> s[i + k..i + |sub|] == sub[k..]
    decreases |sub| - k
  {
    if k < |sub| {
      MatchesFromIff(s, sub, i, k + 1);
      assert s[i + k..i + |sub|] == [s[i + k]] + s[i + k + 1..i + |sub|];
      assert sub[k..] == [sub[k]] + sub[k + 1..];
    }
  }

  lemma {:induction false} ContainsFromIff(s: string, sub: string, i: nat)
    ensures ContainsFrom(s, sub, i) <==> exists j :: i <= j && OccursAt(s, sub, j)
    decreases |s| - i
  {
    if i + |sub| <= |s| {
      MatchesFromIff(s, sub, i, 0);
      ContainsFromIff(s, sub, i + 1);
      if !MatchesFrom(s, sub, i, 0) {
        assert !OccursAt(s, sub, i);
        assert forall j :: i <= j && OccursAt(s, sub, j) ==> i + 1 <= j;
      } else {
        assert OccursAt(s, sub, i);
      }
    } else {
      assert forall j :: i <= j ==> !OccursAt(s, sub, j);
    }
  }

  /** `Contains` is exactly "some occurrence exists". */
  lemma ContainsIff(s: string, sub: string)
    ensures Contains(s, sub) <==> exists j :: OccursAt(s, sub, j)
  {
    ContainsFromIff(s, sub, 0);
  }

  /** `s[i..]` with every non-overlapping occurrence of `pat`, scanned left to
      right, replaced by `rep`. */
  function ReplaceFrom(s: string, pat: string, rep: string, i: nat): string
    requires |pat| > 0 && i <= |s|
    decreases |s| - i
  {
    if i + |pat| > |s| then s[i..]
    else if MatchesFrom(s, pat, i, 0) then rep + ReplaceFrom(s, pat, rep, i + |pat|)
    else [s[i]] + ReplaceFrom(s, pat, rep, i + 1)
  }

  /** Python's `s.replace(pat, rep)` for a non-empty `pat`. */
  function Replace(s: string, pat: string, rep: string): string
    requires |pat| > 0
  {
    ReplaceFrom(s, pat, rep, 0)
  }

  lemma {:induction false} ReplaceFromWithoutOccurrence(s: string, pat: string, rep: string, i: nat)
    requires |pat| > 0 && i <= |s|
    requires !ContainsFrom(s, pat, i)
    ensures ReplaceFrom(s, pat, rep, i) == s[i..]
    decreases |s| - i
  {
    if i + |pat| <= |s| {
      ReplaceFromWithoutOccurrence(s, pat, rep, i + 1);
      assert s[i..] == [s[i]] + s[i + 1..];
    }
  }

  /** A string in which `pat` does not occur is left unchanged by `Replace`. */
  lemma ReplaceWithoutOccurrence(s: string, pat: string, rep: string)
    requires |pat| > 0 && !(exists j :: OccursAt(s, pat, j))
    ensures Replace(s, pat, rep) == s
  {
    ContainsIff(s, pat);
    ReplaceFromWithoutOccurrence(s, pat, rep, 0);
  }

  /** When the only occurrence of `pat` in `s` is at its very end, `Replace`
      swaps that suffix for `rep` and keeps the rest. */
  lemma {:induction false} ReplaceFromLastOccurrence(s: string, pat: string, rep: string, i: nat)
    requires |pat| > 0 && i <= |s| - |pat|
    requires OccursAt(s, pat, |s| - |pat|)
    requires forall j :: i <= j < |s| - |pat| ==> !OccursAt(s, pat, j)
    ensures ReplaceFrom(s, pat, rep, i) == s[i..|s| - |pat|] + rep
    decreases |s| - i
  {
    MatchesFromIff(s, pat, i, 0);
    if i < |s| - |pat| {
      assert !OccursAt(s, pat, i);
      ReplaceFromLastOccurrence(s, pat, rep, i + 1);
      assert s[i..|s| - |pat|] == [s[i]] + s[i + 1..|s| - |pat|];
    } else {
      assert ReplaceFrom(s, pat, rep, i + |pat|) == [];
    }
  }

  /** A string lacking one of the characters of `sub` contains no occurrence of it. */
  lemma AbsentCharNoOccurrence(s: string, sub: string, k: int)
    requires 0 <= k < |sub| && sub[k] !in s
    ensures forall j :: !OccursAt(s, sub, j)
  {
    forall j | 0 <= j && j + |sub| <= |s| ensures !OccursAt(s, sub, j) {
      assert s[j..j + |sub|][k] == s[j + k];
      assert s[j + k] in s;
    }
  }
}
