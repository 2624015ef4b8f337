/** Strings as Python compares, sorts, joins and strips them. */
module Text {

  /** `a <= b` on Python strings: lexicographic by code point. */
  predicate Below(a: string, b: string) {
    |a| == 0 || (|b| > 0 && (a[0] < b[0] || (a[0] == b[0] && Below(a[1..], b[1..]))))
  }

  lemma {:induction false} BelowReflexive(a: string)
    ensures Below(a, a)
  {
    if |a| > 0 { BelowReflexive(a[1..]); }
  }

  lemma {:induction false} BelowTotal(a: string, b: string)
    ensures Below(a, b) || Below(b, a)
  {
    if |a| > 0 && |b| > 0 && a[0] == b[0] { BelowTotal(a[1..], b[1..]); }
  }

  lemma {:induction false} BelowAntisymmetric(a: string, b: string)
    requires Below(a, b) && Below(b, a)
    ensures a == b
  {
    if |a| > 0 && |b| > 0 {
      BelowAntisymmetric(a[1..], b[1..]);
      assert a == [a[0]] + a[1..] && b == [b[0]] + b[1..];
    }
  }

  lemma {:induction false} BelowTransitive(a: string, b: string, c: string)
    requires Below(a, b) && Below(b, c)
    ensures Below(a, c)
  {
    if |a| > 0 && a[0] == b[0] && b[0] == c[0] {
      BelowTransitive(a[1..], b[1..], c[1..]);
    }
  }

  /** Ascending order, as left by `sorted(...)` or `list.sort()`. */
  predicate Sorted(s: seq<string>) {
    forall i, j :: 0 <= i < j < |s| ==> Below(s[i], s[j])
  }

  predicate IsLeast(m: string, b: multiset<string>) {
    m in b && forall y :: y in b ==> Below(m, y)
  }

  lemma {:induction false} LeastExists(b: multiset<string>)
    requires |b| > 0
    ensures exists m :: IsLeast(m, b)
    decreases |b|
  {
    var x :| x in b;
    var rest := b - multiset{x};
    assert b == rest + multiset{x};
    if |rest| == 0 {
      BelowReflexive(x);
      assert IsLeast(x, b);
    } else {
      LeastExists(rest);
      var m :| IsLeast(m, rest);
      LeastOfAdded(x, m, rest);
    }
  }

  /** Adding `x` to a multiset whose least element is `m` leaves the smaller
      of the two least. */
  lemma LeastOfAdded(x: string, m: string, rest: multiset<string>)
    requires IsLeast(m, rest)
    ensures IsLeast(x, rest + multiset{x}) || IsLeast(m, rest + multiset{x})
  {
    var b := rest + multiset{x};
    BelowTotal(x, m);
    if Below(x, m) {
      BelowReflexive(x);
      forall y | y in b ensures Below(x, y) {
        if y != x { BelowTransitive(x, m, y); }
      }
    }
  }

  lemma LeastUnique(b: multiset<string>)
    ensures forall m, m' :: IsLeast(m, b) && IsLeast(m', b) ==> m == m'
  {
    forall m, m' | IsLeast(m, b) && IsLeast(m', b) ensures m == m' {
      BelowAntisymmetric(m, m');
    }
  }

  /** The sorted list of the elements of `b`, each as often as `b` holds it:
      what `sorted` returns for any list whose elements are `b`. */
  function SortBag(b: multiset<string>): (r: seq<string>)
    ensures Sorted(r) && multiset(r) == b
    decreases |b|
  {
    if |b| == 0 then []
    else
      LeastExists(b);
      LeastUnique(b);
      var m :| IsLeast(m, b);
      var rest := SortBag(b - multiset{m});
      LeastFirst(m, rest, b);
      [m] + rest
  }

  lemma LeastFirst(m: string, rest: seq<string>, b: multiset<string>)
    requires IsLeast(m, b) && Sorted(rest) && multiset(rest) == b - multiset{m}
    ensures Sorted([m] + rest) && multiset([m] + rest) == b
  {
    forall j | 0 <= j < |rest| ensures Below(m, rest[j]) {
      assert rest[j] in multiset(rest);
    }
  }

  /** Sorting keeps exactly the elements it is given. */
  lemma SortBagMembers(b: multiset<string>)
    ensures forall x :: x in SortBag(b) <==> x in b
  {
    var r := SortBag(b);
    forall x ensures x in r <==> x in b {
      assert x in r <==> x in multiset(r);
    }
  }

  /** There is only one sorted arrangement of a given collection of strings. */
  lemma {:induction false} SortedUnique(a: seq<string>, b: seq<string>)
    requires Sorted(a) && Sorted(b) && multiset(a) == multiset(b)
    ensures a == b
    decreases |a|
  {
    if |a| > 0 {
      SortedHeadIsLeast(a);
      SortedHeadIsLeast(b);
      LeastUnique(multiset(a));
      SortedTail(a);
      SortedTail(b);
      SortedUnique(a[1..], b[1..]);
      SameHeadAndTail(a, b);
    }
  }

  lemma SameHeadAndTail<T>(a: seq<T>, b: seq<T>)
    requires |a| > 0 && |b| > 0 && a[0] == b[0] && a[1..] == b[1..]
    ensures a == b
  {
    assert a == [a[0]] + a[1..] && b == [b[0]] + b[1..];
  }

  lemma SortedHeadIsLeast(a: seq<string>)
    requires Sorted(a) && |a| > 0
    ensures IsLeast(a[0], multiset(a))
  {
    BelowReflexive(a[0]);
    forall y | y in multiset(a) ensures Below(a[0], y) {
      assert y in a;
    }
  }

  /** Dropping the head of a sorted list leaves a sorted list of the rest. */
  lemma SortedTail(a: seq<string>)
    requires Sorted(a) && |a| > 0
    ensures Sorted(a[1..]) && multiset(a[1..]) == multiset(a) - multiset{a[0]}
  {
    assert a == [a[0]] + a[1..];
  }

  /** Sorting a list yields the one sorted arrangement of its elements, so the
      result does not depend on the order the elements came in. */
  lemma SortIsUnique(xs: seq<string>, r: seq<string>)
    requires Sorted(r) && multiset(r) == multiset(xs)
    ensures r == SortBag(multiset(xs))
  {
    SortedUnique(r, SortBag(multiset(xs)));
  }

  /** A list without repeats has as many members as elements. */
  lemma {:induction false} DistinctCount<T>(s: seq<T>)
    requires forall i, j :: 0 <= i < j < |s| ==> s[i] != s[j]
    ensures |set x | x in s| == |s|
  {
    if |s| > 0 {
      DistinctCount(s[1..]);
      assert (set x | x in s) == {s[0]} + set x | x in s[1..];
      assert s[0] !in s[1..];
    }
  }

  /** `sep.join(xs)` */
  function Join(sep: string, xs: seq<string>): string {
    if |xs| == 0 then ""
    else if |xs| == 1 then xs[0]
    else xs[0] + sep + Join(sep, xs[1..])
  }

  /** `s.startswith(p)` */
  predicate StartsWith(s: string, p: string) {
    |p| <= |s| && s[..|p|] == p
  }

  /** The characters `str.strip()` removes: `string.whitespace`. */
  predicate IsSpace(c: char) {
    c == ' ' || c == '\t' || c == '\n' || c == '\r' || c == 11 as char || c == 12 as char
  }

  /** The first index at or after `i` that is not whitespace. */
  function SpanStart(s: string, i: nat): (n: nat)
    requires i <= |s|
    ensures i <= n <= |s|
    ensures forall k :: i <= k < n ==> IsSpace(s[k])
    ensures n < |s| ==> !IsSpace(s[n])
    decreases |s| - i
  {
    if i < |s| && IsSpace(s[i]) then SpanStart(s, i + 1) else i
  }

  /** The index just past the last non-whitespace character of `s[lo..j]`,
      or `lo` when there is none. */
  function SpanEnd(s: string, lo: nat, j: nat): (n: nat)
    requires lo <= j <= |s|
    ensures lo <= n <= j
    ensures forall k :: n <= k < j ==> IsSpace(s[k])
    ensures n > lo ==> !IsSpace(s[n - 1])
    decreases j
  {
    if j > lo && IsSpace(s[j - 1]) then SpanEnd(s, lo, j - 1) else j
  }

  /** How many leading characters `strip` drops. */
  function LeadingSpace(s: string): (n: nat)
    ensures n <= |s|
  {
    SpanStart(s, 0)
  }

  /** `s.strip()`: drops leading and trailing whitespace and nothing else. */
  function Strip(s: string): (r: string)
    ensures LeadingSpace(s) + |r| <= |s| && r == s[LeadingSpace(s)..LeadingSpace(s) + |r|]
    ensures forall k :: 0 <= k < LeadingSpace(s) ==> IsSpace(s[k])
    ensures forall k :: LeadingSpace(s) + |r| <= k < |s| ==> IsSpace(s[k])
    ensures |r| > 0 ==> !IsSpace(r[0]) && !IsSpace(r[|r| - 1])
    ensures (|s| == 0 || (!IsSpace(s[0]) && !IsSpace(s[|s| - 1]))) ==> r == s
  {
    var i := SpanStart(s, 0);
    var e := SpanEnd(s, i, |s|);
    assert e > i ==> !IsSpace(s[i]);
    s[i..e]
  }
}
