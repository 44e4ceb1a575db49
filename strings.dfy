/**
 * String facts shared by the generator: the order of Java's `String.compareTo`, which both
 * `List.sort(Comparator.comparing(GeneratedPlugin::getPluginName))` and `Arrays.sort(String[])`
 * use, and a splitting lemma for names built as `prefix + separator + suffix`.
 */
module Strings {

  /**
   * `Leq(a, b)` holds exactly when `a.compareTo(b) <= 0` in Java: the first differing character
   * decides, and a proper prefix comes first. Characters are compared by their code value.
   */
  predicate Leq(a: string, b: string)
    decreases |a|
  {
    |a| == 0 || (|b| > 0 && (a[0] < b[0] || (a[0] == b[0] && Leq(a[1..], b[1..]))))
  }

  lemma {:induction false} LeqReflexive(a: string)
    ensures Leq(a, a)
    decreases |a|
  {
    if |a| > 0 {
      LeqReflexive(a[1..]);
    }
  }

  lemma {:induction false} LeqAntisymmetric(a: string, b: string)
    requires Leq(a, b) && Leq(b, a)
    ensures a == b
    decreases |a|
  {
    if |a| > 0 {
      LeqAntisymmetric(a[1..], b[1..]);
      assert a == [a[0]] + a[1..] && b == [b[0]] + b[1..];
    }
  }

  lemma {:induction false} LeqTransitive(a: string, b: string, c: string)
    requires Leq(a, b) && Leq(b, c)
    ensures Leq(a, c)
    decreases |a|
  {
    if |a| > 0 && a[0] == b[0] && b[0] == c[0] {
      LeqTransitive(a[1..], b[1..], c[1..]);
    }
  }

  lemma {:induction false} LeqTotal(a: string, b: string)
    ensures Leq(a, b) || Leq(b, a)
    decreases |a|
  {
    if |a| > 0 && |b| > 0 && a[0] == b[0] {
      LeqTotal(a[1..], b[1..]);
    }
  }

  /** The text after the last occurrence of `c` in `s` (all of `s` when `c` does not occur). */
  function AfterLast(s: string, c: char): (r: string)
    ensures c !in r
    ensures |r| <= |s| && r == s[|s| - |r|..]
    ensures |r| < |s| ==> s[|s| - |r| - 1] == c
  {
    if s == [] then []
    else if s[|s| - 1] == c then []
    else
      var r' := AfterLast(s[..|s| - 1], c);
      assert s[..|s| - 1][|s| - 1 - |r'|..] + [s[|s| - 1]] == s[|s| - |r'| - 1..];
      r' + [s[|s| - 1]]
  }

  lemma {:induction false} AfterLastOfJoin(a: string, c: char, x: string)
    requires c !in x
    ensures AfterLast(a + [c] + x, c) == x
    decreases |x|
  {
    var s := a + [c] + x;
    if x != [] {
      assert s[..|s| - 1] == a + [c] + x[..|x| - 1];
      AfterLastOfJoin(a, c, x[..|x| - 1]);
      assert x == x[..|x| - 1] + [x[|x| - 1]];
    }
  }

  /** A string joined at a separator that occurs in neither suffix splits back uniquely. */
  lemma SplitAtLast(a: string, x: string, b: string, y: string, c: char)
    requires c !in x && c !in y
    requires a + [c] + x == b + [c] + y
    ensures a == b && x == y
  {
    var s := a + [c] + x;
    AfterLastOfJoin(a, c, x);
    AfterLastOfJoin(b, c, y);
    assert |a| == |b|;
    assert a == s[..|a|] && b == s[..|b|];
  }
}
