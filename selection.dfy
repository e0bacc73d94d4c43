/**
 * The column selection: a list of column names kept in toggle order.
 * Toggling a name removes it when present (every occurrence, as a filter
 * does) and appends it at the end otherwise.
 */
module Selection {

  /** No name occurs twice. */
  predicate NoDup(s: seq<string>) {
    forall i, j :: 0 <= i < j < |s| ==> s[i] != s[j]
  }

  /** The elements of `s` other than `x`, in their original order. */
  function Without(s: seq<string>, x: string): (r: seq<string>)
    ensures forall y :: y in r <==> y in s && y != x
    ensures |r| <= |s|
  {
    if s == [] then [] else (if s[0] == x then [] else [s[0]]) + Without(s[1..], x)
  }

  /** Toggling `x`: remove every occurrence when present, else append it at the end. */
  function Toggled(s: seq<string>, x: string): seq<string> {
    if x in s then Without(s, x) else s + [x]
  }

  /** Filtering distributes over concatenation. */
  lemma {:induction false} WithoutAppend(a: seq<string>, b: seq<string>, x: string)
    ensures Without(a + b, x) == Without(a, x) + Without(b, x)
  {
    if a != [] {
      assert (a + b)[1..] == a[1..] + b;
      WithoutAppend(a[1..], b, x);
    } else {
      assert a + b == b;
    }
  }

  /** Filtering out a name that does not occur changes nothing. */
  lemma {:induction false} WithoutAbsent(s: seq<string>, x: string)
    requires x !in s
    ensures Without(s, x) == s
  {
    if s != [] {
      WithoutAbsent(s[1..], x);
    }
  }

  /** In a list without duplicates, filtering removes exactly the one position holding the name. */
  lemma {:induction false} WithoutAt(s: seq<string>, x: string, i: nat)
    requires NoDup(s) && i < |s| && s[i] == x
    ensures Without(s, x) == s[..i] + s[i + 1..]
  {
    assert s == s[..i] + [x] + s[i + 1..];
    WithoutAppend(s[..i] + [x], s[i + 1..], x);
    WithoutAppend(s[..i], [x], x);
    assert x !in s[..i];
    assert x !in s[i + 1..];
    WithoutAbsent(s[..i], x);
    WithoutAbsent(s[i + 1..], x);
    assert Without([x], x) == [] + Without([], x);
  }

  /** Filtering keeps a list free of duplicates. */
  lemma {:induction false} WithoutNoDup(s: seq<string>, x: string)
    requires NoDup(s)
    ensures NoDup(Without(s, x))
  {
    if s != [] {
      assert NoDup(s[1..]);
      WithoutNoDup(s[1..], x);
      assert s[0] !in s[1..];
    }
  }

  /** Toggling an absent name appends it at the end; toggling a present one removes it. */
  lemma ToggleEffect(s: seq<string>, x: string)
    ensures x !in s ==> Toggled(s, x) == s + [x]
    ensures x in s ==> x !in Toggled(s, x)
    ensures forall y :: y != x ==> (y in Toggled(s, x) <==> y in s)
    ensures NoDup(s) && x in s ==>
              exists i :: 0 <= i < |s| && s[i] == x && Toggled(s, x) == s[..i] + s[i + 1..]
  {
    if NoDup(s) && x in s {
      var i :| 0 <= i < |s| && s[i] == x;
      WithoutAt(s, x, i);
    }
  }

  /** Toggling keeps the selection free of duplicates. */
  lemma ToggleNoDup(s: seq<string>, x: string)
    requires NoDup(s)
    ensures NoDup(Toggled(s, x))
  {
    if x in s {
      WithoutNoDup(s, x);
    }
  }

  /** Toggling an absent name twice restores the selection exactly. */
  lemma ToggleTwiceAbsent(s: seq<string>, x: string)
    requires x !in s
    ensures Toggled(Toggled(s, x), x) == s
  {
    WithoutAppend(s, [x], x);
    WithoutAbsent(s, x);
    assert Without([x], x) == [] + Without([], x);
  }

  /**
   * Toggling a present name twice restores the same set of names, with
   * that name moved to the end.
   */
  lemma ToggleTwicePresent(s: seq<string>, x: string)
    requires x in s
    ensures Toggled(Toggled(s, x), x) == Without(s, x) + [x]
    ensures forall y :: y in Toggled(Toggled(s, x), x) <==> y in s
  {
  }

  /** A selection made only of the dataset's columns stays within them when a column is toggled. */
  lemma ToggleWithin(s: seq<string>, x: string, columns: seq<string>)
    requires forall y :: y in s ==> y in columns
    requires x in columns
    ensures forall y :: y in Toggled(s, x) ==> y in columns
  {
  }
}
