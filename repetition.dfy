/** Repetition of a string, the role Guava's `Strings.repeat` plays for the
    indent unit and for the current indentation. */
module Repetition {

  /** Every character of `s` is a blank. */
  predicate AllSpaces(s: string) {
    forall i :: 0 <= i < |s| ==> s[i] == ' '
  }

  /** `n` copies of `s`, one after the other. The last copy is added at the
      end, which is how `indent()` grows the current indentation. */
  function Repeat(s: string, n: nat): string {
    if n == 0 then "" else Repeat(s, n - 1) + s
  }

  /** The indent unit built by the factory: `n` blanks. */
  function Spaces(n: nat): (r: string)
    ensures |r| == n && AllSpaces(r)
  {
    RepeatLength(" ", n);
    RepeatKeepsSpaces(" ", n);
    Repeat(" ", n)
  }

  lemma {:induction false} RepeatLength(s: string, n: nat)
    ensures |Repeat(s, n)| == n * |s|
  {
    if n > 0 {
      RepeatLength(s, n - 1);
      assert |Repeat(s, n)| == (n - 1) * |s| + |s|;
    }
  }

  lemma {:induction false} RepeatKeepsSpaces(s: string, n: nat)
    requires AllSpaces(s)
    ensures AllSpaces(Repeat(s, n))
  {
    if n > 0 {
      RepeatKeepsSpaces(s, n - 1);
    }
  }

  /** Repeating the empty unit gives the empty string, however often. */
  lemma {:induction false} RepeatOfEmpty(n: nat)
    ensures Repeat("", n) == ""
  {
    if n > 0 {
      RepeatOfEmpty(n - 1);
    }
  }

  /** Concatenating m copies and n copies gives m + n copies. */
  lemma {:induction false} RepeatAdd(s: string, m: nat, n: nat)
    ensures Repeat(s, m + n) == Repeat(s, m) + Repeat(s, n)
  {
    if n > 0 {
      RepeatAdd(s, m, n - 1);
      assert Repeat(s, m + n) == Repeat(s, m + (n - 1)) + s;
    }
  }

  /** With a non-empty unit the string determines the number of copies. */
  lemma RepeatDeterminesCount(s: string, m: nat, n: nat)
    requires |s| > 0
    requires Repeat(s, m) == Repeat(s, n)
    ensures m == n
  {
    RepeatLength(s, m);
    RepeatLength(s, n);
    TimesCancel(m, n, |s|);
  }

  lemma TimesCancel(a: nat, b: nat, k: nat)
    requires k > 0 && a * k == b * k
    ensures a == b
  {
  }
}
