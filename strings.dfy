/**
 * The engine's string comparisons that the plugin relies on.
 *
 * `FString::Contains` is called with its default search case, which ignores
 * case, and pin names are `FName`s, whose equality ignores case as well.
 * Both fold letters to upper case one character at a time. The model folds
 * the ASCII letters only; any folding the engine applies to other characters
 * is not modelled.
 */
module Strings {

  /** Upper-case folding of one character (ASCII letters only). */
  function ToUpper(c: char): char
  {
    if 'a' <= c <= 'z' then (c as int - 'a' as int + 'A' as int) as char else c
  }

  predicate SameLetterIgnoringCase(a: char, b: char)
  {
    ToUpper(a) == ToUpper(b)
  }

  /** `pattern` occurs in `s` at position `i`, ignoring case. */
  ghost predicate OccursAt(s: string, pattern: string, i: int)
  {
    0 <= i && i + |pattern| <= |s| &&
    forall k :: 0 <= k < |pattern| ==> SameLetterIgnoringCase(s[i + k], pattern[k])
  }

  /** `s` begins with `pattern`, ignoring case. */
  function StartsWithIgnoringCase(s: string, pattern: string): bool
  {
    if pattern == [] then true
    else if s == [] then false
    else SameLetterIgnoringCase(s[0], pattern[0]) && StartsWithIgnoringCase(s[1..], pattern[1..])
  }

  /** The search behind `FString::Contains(pattern)` with the default search case. */
  function Contains(s: string, pattern: string): bool
    decreases |s|
  {
    if |pattern| > |s| then false
    else StartsWithIgnoringCase(s, pattern) || (s != [] && Contains(s[1..], pattern))
  }

  /** Equality of two names ignoring case, as `FName` compares them. */
  predicate EqualsIgnoringCase(a: string, b: string)
  {
    |a| == |b| && StartsWithIgnoringCase(a, b)
  }

  lemma {:induction false} StartsWithIsOccurrenceAtZero(s: string, pattern: string)
    ensures StartsWithIgnoringCase(s, pattern) <==> OccursAt(s, pattern, 0)
    decreases |pattern|
  {
    if pattern != [] && s != [] {
      StartsWithIsOccurrenceAtZero(s[1..], pattern[1..]);
      if OccursAt(s[1..], pattern[1..], 0) && SameLetterIgnoringCase(s[0], pattern[0]) {
        forall k | 0 <= k < |pattern| ensures SameLetterIgnoringCase(s[k], pattern[k]) {
          if k > 0 { assert s[1..][k - 1] == s[k] && pattern[1..][k - 1] == pattern[k]; }
        }
      }
      if OccursAt(s, pattern, 0) {
        forall k | 0 <= k < |pattern| - 1 ensures SameLetterIgnoringCase(s[1..][k], pattern[1..][k]) {
          assert SameLetterIgnoringCase(s[k + 1], pattern[k + 1]);
        }
      }
    }
  }

  /** The case-insensitive search finds `pattern` exactly when it occurs somewhere in `s`. */
  lemma {:induction false} ContainsIffOccurs(s: string, pattern: string)
    ensures Contains(s, pattern) <==> exists i :: OccursAt(s, pattern, i)
    decreases |s|
  {
    StartsWithIsOccurrenceAtZero(s, pattern);
    if |pattern| > |s| {
      forall i ensures !OccursAt(s, pattern, i) { }
    } else if s != [] {
      ContainsIffOccurs(s[1..], pattern);
      if Contains(s[1..], pattern) {
        var i :| OccursAt(s[1..], pattern, i);
        forall k | 0 <= k < |pattern| ensures SameLetterIgnoringCase(s[i + 1 + k], pattern[k]) {
          assert s[1..][i + k] == s[i + 1 + k];
        }
        assert OccursAt(s, pattern, i + 1);
      }
      if i :| OccursAt(s, pattern, i) {
        if i > 0 {
          forall k | 0 <= k < |pattern| ensures SameLetterIgnoringCase(s[1..][i - 1 + k], pattern[k]) {
            assert s[1..][i - 1 + k] == s[i + k];
          }
          assert OccursAt(s[1..], pattern, i - 1);
        }
      }
    } else {
      forall i | OccursAt(s, pattern, i) ensures i == 0 { }
    }
  }

  /** Equality ignoring case is equal length plus letter-by-letter folded equality. */
  lemma EqualsIgnoringCaseIsLetterwise(a: string, b: string)
    ensures EqualsIgnoringCase(a, b) <==>
      |a| == |b| && forall k :: 0 <= k < |a| ==> ToUpper(a[k]) == ToUpper(b[k])
  {
    StartsWithIsOccurrenceAtZero(a, b);
  }
}
