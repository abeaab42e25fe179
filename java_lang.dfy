/**
 * The few java.lang behaviours the user entity relies on: String.compareTo,
 * Long.compare and the exception kinds the entity's code can raise.
 * A Dafny `char` is a Unicode scalar value, compared here as Java compares
 * one UTF-16 code unit. The two agree on characters up to U+FFFF; above it
 * Java compares the surrogate pair instead, and lone surrogates, which a
 * Java string may hold, cannot occur here.
 */
module JavaLang {

  /** Exceptions raised on the paths this model follows. */
  datatype Exception =
    | NullPointerException      // a method invoked on, or a value unboxed from, null
    | NullPrincipalException    // an abstract kind, not a Java class: the refusal of a null
                                // principal by a principal collection

  /** The sign of an integer: -1, 0 or 1. */
  function Sign(x: int): (r: int) {
    if x < 0 then -1 else if x == 0 then 0 else 1
  }

  /**
   * String.compareTo: the difference of the first pair of code units that
   * differ, or the difference of the lengths when one string is a prefix of
   * the other. It is zero exactly when the strings are equal.
   */
  function StringCompareTo(s: string, t: string): (r: int)
    ensures r == 0 <==> s == t
    decreases |s|
  {
    if s == [] || t == [] then
      |s| - |t|
    else if s[0] != t[0] then
      s[0] as int - t[0] as int
    else
      assert s == [s[0]] + s[1..] && t == [t[0]] + t[1..];
      StringCompareTo(s[1..], t[1..])
  }

  /** Swapping the arguments of String.compareTo negates the result exactly. */
  lemma {:induction false} StringCompareToAntisymmetric(s: string, t: string)
    ensures StringCompareTo(t, s) == -StringCompareTo(s, t)
    decreases |s|
  {
    if s != [] && t != [] && s[0] == t[0] {
      StringCompareToAntisymmetric(s[1..], t[1..]);
    }
  }

  /** String.compareTo is a transitive strict order. */
  lemma {:induction false} StringCompareToTransitive(s: string, t: string, u: string)
    requires StringCompareTo(s, t) < 0 && StringCompareTo(t, u) < 0
    ensures StringCompareTo(s, u) < 0
    decreases |s|
  {
    if s != [] && t != [] && u != [] && s[0] == t[0] && t[0] == u[0] {
      StringCompareToTransitive(s[1..], t[1..], u[1..]);
    }
  }

  /** s is a proper prefix of t. */
  ghost predicate ProperPrefix(s: string, t: string) {
    |s| < |t| && s == t[..|s|]
  }

  /** s and t agree below index k, and at k the character of s is the smaller. */
  ghost predicate FirstDifferenceBelow(s: string, t: string, k: int) {
    0 <= k < |s| && k < |t| && s[..k] == t[..k] && s[k] < t[k]
  }

  /**
   * The lexicographic order on strings, stated without String.compareTo:
   * s is a proper prefix of t, or at the first index where they differ the
   * character of s is the smaller one.
   */
  ghost predicate LexicographicallyBefore(s: string, t: string) {
    ProperPrefix(s, t) || exists k :: FirstDifferenceBelow(s, t, k)
  }

  /** Strings that start alike: proper prefixes of each other after the first character. */
  lemma ProperPrefixTail(s: string, t: string)
    requires s != [] && t != [] && s[0] == t[0]
    ensures ProperPrefix(s, t) <==> ProperPrefix(s[1..], t[1..])
  {
    if |s| < |t| {
      assert t[..|s|] == [t[0]] + t[1..][..|s| - 1];
      assert s == [s[0]] + s[1..];
    }
  }

  /** Strings that start alike: a first difference at k + 1 is one at k in the tails. */
  lemma FirstDifferenceTail(s: string, t: string, k: nat)
    requires s != [] && t != [] && s[0] == t[0]
    ensures FirstDifferenceBelow(s, t, k + 1) <==> FirstDifferenceBelow(s[1..], t[1..], k)
  {
    if k + 1 < |s| && k + 1 < |t| {
      assert s[..k + 1] == [s[0]] + s[1..][..k];
      assert t[..k + 1] == [t[0]] + t[1..][..k];
    }
  }

  /** Strings whose first characters differ: only index 0 can be the first difference. */
  lemma FirstDifferenceAtHead(s: string, t: string, k: int)
    requires s != [] && t != [] && s[0] != t[0]
    ensures FirstDifferenceBelow(s, t, k) <==> k == 0 && s[0] < t[0]
  {
    if 0 < k < |s| && k < |t| {
      assert s[..k][0] == s[0] && t[..k][0] == t[0];
    }
    assert s[..0] == t[..0];
  }

  /** String.compareTo is negative exactly when s comes lexicographically before t. */
  lemma {:induction false} StringCompareToNegative(s: string, t: string)
    ensures StringCompareTo(s, t) < 0 <==> LexicographicallyBefore(s, t)
    decreases |s|
  {
    if s == [] || t == [] {
      if s == [] && t != [] { assert s == t[..0]; }
    } else if s[0] != t[0] {
      FirstDifferenceAtHead(s, t, 0);
      if |s| < |t| { assert t[..|s|][0] == t[0]; }
      forall k | FirstDifferenceBelow(s, t, k) ensures k == 0 {
        FirstDifferenceAtHead(s, t, k);
      }
    } else {
      StringCompareToNegative(s[1..], t[1..]);
      ProperPrefixTail(s, t);
      assert !FirstDifferenceBelow(s, t, 0);
      forall k | FirstDifferenceBelow(s, t, k) ensures FirstDifferenceBelow(s[1..], t[1..], k - 1) {
        FirstDifferenceTail(s, t, k - 1);
      }
      forall k: nat | FirstDifferenceBelow(s[1..], t[1..], k) ensures FirstDifferenceBelow(s, t, k + 1) {
        FirstDifferenceTail(s, t, k);
      }
    }
  }

  /** Long.compare: -1, 0 or 1 as x is below, equal to or above y. */
  function LongCompare(x: int, y: int): (r: int)
    ensures r == Sign(x - y)
  {
    if x < y then -1 else if x == y then 0 else 1
  }
}
