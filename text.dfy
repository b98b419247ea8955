/** String helpers shared by the pages and routes: JavaScript's
    `String.prototype.startsWith`, its `length` (in UTF-16 code units), and
    the decimal rendering that a template literal such as
    `processed-${index}` applies to a non-negative index. */
module Text {

  /** `s.startsWith(prefix)`. */
  predicate StartsWith(s: string, prefix: string) {
    |prefix| <= |s| && s[..|prefix|] == prefix
  }

  /** A prefix test is decided by the first |prefix| characters alone:
      whatever follows them does not matter. */
  lemma StartsWithExtends(prefix: string, rest: string)
    ensures StartsWith(prefix + rest, prefix)
  {
    assert (prefix + rest)[..|prefix|] == prefix;
  }

  /** A string that differs from `prefix` at some position inside the
      prefix does not start with it. */
  lemma NotStartsWithAt(s: string, prefix: string, k: nat)
    requires k < |prefix| && k < |s| && s[k] != prefix[k]
    ensures !StartsWith(s, prefix)
  {
    if |prefix| <= |s| {
      assert s[..|prefix|][k] == s[k];
    }
  }

  /** `s.length` in JavaScript: a character outside the Basic Multilingual
      Plane is a surrogate pair and counts twice. */
  function Utf16Length(s: string): (n: nat)
    ensures |s| <= n <= 2 * |s|
    ensures n == |s| <==> forall i :: 0 <= i < |s| ==> (s[i] as int) < 0x1_0000
  {
    if s == [] then 0
    else (if (s[0] as int) < 0x1_0000 then 1 else 2) + Utf16Length(s[1..])
  }

  /** A text made only of characters outside the Basic Multilingual Plane
      (emoji, for example) has a JavaScript length twice its number of
      characters. */
  lemma {:induction false} AstralCountsTwice(s: string)
    requires forall i :: 0 <= i < |s| ==> (s[i] as int) >= 0x1_0000
    ensures Utf16Length(s) == 2 * |s|
  {
    if s != [] {
      assert forall i :: 0 <= i < |s[1..]| ==> s[1..][i] == s[i + 1];
      AstralCountsTwice(s[1..]);
    }
  }

  const Digits: string := "0123456789"

  /** The decimal digits of `n`, most significant first, with no leading
      zeros, as JavaScript prints a non-negative integer. */
  function NatToString(n: nat): (r: string)
    ensures |r| >= 1
    ensures forall i :: 0 <= i < |r| ==> r[i] in Digits
    ensures (n < 10) == (|r| == 1)
    decreases n
  {
    if n < 10 then [Digits[n]]
    else NatToString(n / 10) + [Digits[n % 10]]
  }

  /** Two indices print the same only if they are equal, so the keys
      `prefix-0`, `prefix-1`, ... of a multipart body never collide. */
  lemma {:induction false} NatToStringInjective(a: nat, b: nat)
    requires NatToString(a) == NatToString(b)
    ensures a == b
    decreases a
  {
    if a < 10 {
      assert b < 10;
      assert Digits[a] == Digits[b];
    } else {
      assert b >= 10;
      var sa, sb := NatToString(a / 10), NatToString(b / 10);
      assert NatToString(a) == sa + [Digits[a % 10]];
      assert NatToString(b) == sb + [Digits[b % 10]];
      assert |sa| == |sb|;
      assert sa == NatToString(a)[..|sa|];
      assert sb == NatToString(b)[..|sb|];
      NatToStringInjective(a / 10, b / 10);
      assert Digits[a % 10] == NatToString(a)[|sa|] == Digits[b % 10];
    }
  }

  /** With two literal-distinct prefixes that differ at some position,
      keys built from them never collide, whatever the suffixes. */
  lemma DistinctPrefixedKeys(p: string, q: string, k: nat, x: string, y: string)
    requires k < |p| && k < |q| && p[k] != q[k]
    ensures p + x != q + y
  {
    assert (p + x)[k] == p[k];
    assert (q + y)[k] == q[k];
  }

  /** `${prefix}${i}` keys are pairwise distinct for distinct indices. */
  lemma IndexedKeysDistinct(prefix: string, i: nat, j: nat)
    requires i != j
    ensures prefix + NatToString(i) != prefix + NatToString(j)
  {
    if prefix + NatToString(i) == prefix + NatToString(j) {
      assert NatToString(i) == (prefix + NatToString(i))[|prefix|..];
      assert NatToString(j) == (prefix + NatToString(j))[|prefix|..];
      NatToStringInjective(i, j);
    }
  }
}
