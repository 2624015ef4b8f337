/** The canonical identity of a series: `Series.make_series_key`
    (basescript/stats.py). */
module SeriesKeys {
  import opened Values
  import opened Text

  /** Keyword arguments `tag=value`, in the order they were written. */
  type Tags = seq<(string, Value)>

  /** `'%s=%s' % (k, v)` */
  function TagText(tag: (string, Value), realText: real -> string): string {
    tag.0 + "=" + Render(tag.1, realText)
  }

  /** The `k=v` texts of the tags whose value is not `None`, in argument order. */
  function TagPairs(tags: Tags, realText: real -> string): seq<string> {
    if |tags| == 0 then []
    else (if tags[0].1.Nil? then [] else [TagText(tags[0], realText)]) + TagPairs(tags[1..], realText)
  }

  /** `make_series_key(measurement, **tags)`. With no tags at all the
      measurement is returned as it is. Otherwise the sorted `k=v` texts of
      the tags whose value is not `None` follow the measurement and a comma,
      and surrounding whitespace is stripped. */
  function MakeSeriesKey(measurement: string, tags: Tags, realText: real -> string): (r: string)
    ensures |tags| == 0 ==> r == measurement
  {
    if |tags| == 0 then measurement
    else Strip(measurement + "," + Join(",", SortBag(multiset(TagPairs(tags, realText)))))
  }

  lemma {:induction false} TagPairsAppend(a: Tags, b: Tags, realText: real -> string)
    ensures TagPairs(a + b, realText) == TagPairs(a, realText) + TagPairs(b, realText)
  {
    if |a| == 0 {
      assert a + b == b;
    } else {
      var head := if a[0].1.Nil? then [] else [TagText(a[0], realText)];
      assert (a + b)[0] == a[0] && (a + b)[1..] == a[1..] + b;
      assert TagPairs(a + b, realText) == head + TagPairs(a[1..] + b, realText);
      TagPairsAppend(a[1..], b, realText);
      assert TagPairs(a, realText) == head + TagPairs(a[1..], realText);
    }
  }

  /** Rearranging the tags rearranges their `k=v` texts and nothing more. */
  lemma {:induction false} TagPairsPermutation(a: Tags, b: Tags, realText: real -> string)
    requires multiset(a) == multiset(b)
    ensures multiset(TagPairs(a, realText)) == multiset(TagPairs(b, realText))
    decreases |a|
  {
    if |a| == 0 {
      assert |b| == |multiset(b)| == 0;
    } else {
      var x := a[0];
      assert x in multiset(b);
      var i :| 0 <= i < |b| && b[i] == x;
      var p, q := b[..i], b[i + 1..];
      var b' := p + q;
      assert b == p + [x] + q;
      assert a == [x] + a[1..];
      assert multiset(a[1..]) == multiset(a) - multiset{x};
      assert multiset(b') == multiset(b) - multiset{x};
      TagPairsPermutation(a[1..], b', realText);
      TagPairsAppend([x], a[1..], realText);
      TagPairsAppend(p + [x], q, realText);
      TagPairsAppend(p, [x], realText);
      TagPairsAppend(p, q, realText);
      var tx, tp, tq := TagPairs([x], realText), TagPairs(p, realText), TagPairs(q, realText);
      assert TagPairs(a, realText) == tx + TagPairs(a[1..], realText);
      assert TagPairs(b, realText) == tp + tx + tq;
      assert TagPairs(b', realText) == tp + tq;
      MovedToFront(tx, TagPairs(a[1..], realText), tp, tq);
    }
  }

  lemma MovedToFront(x: seq<string>, rest: seq<string>, p: seq<string>, q: seq<string>)
    requires multiset(rest) == multiset(p + q)
    ensures multiset(x + rest) == multiset(p + x + q)
  {
  }

  /** The key does not depend on the order in which the tags were given. */
  lemma KeyIgnoresTagOrder(measurement: string, a: Tags, b: Tags, realText: real -> string)
    requires multiset(a) == multiset(b)
    ensures MakeSeriesKey(measurement, a, realText) == MakeSeriesKey(measurement, b, realText)
  {
    assert |a| == |multiset(a)| == |multiset(b)| == |b|;
    TagPairsPermutation(a, b, realText);
  }

  lemma {:induction false} TagPairsMembers(tags: Tags, realText: real -> string)
    ensures forall i :: 0 <= i < |tags| && !tags[i].1.Nil? ==> TagText(tags[i], realText) in TagPairs(tags, realText)
    ensures forall x :: x in TagPairs(tags, realText) ==>
      exists i :: 0 <= i < |tags| && !tags[i].1.Nil? && x == TagText(tags[i], realText)
  {
    if |tags| > 0 {
      TagPairsMembers(tags[1..], realText);
      forall x | x in TagPairs(tags, realText)
        ensures exists i :: 0 <= i < |tags| && !tags[i].1.Nil? && x == TagText(tags[i], realText)
      {
        if !(!tags[0].1.Nil? && x == TagText(tags[0], realText)) {
          var j :| 0 <= j < |tags[1..]| && !tags[1..][j].1.Nil? && x == TagText(tags[1..][j], realText);
          assert tags[1..][j] == tags[j + 1];
        }
      }
    }
  }

  /** With at least one tag, the key is the stripped text of the measurement,
      a comma and the comma-joined sorted list that holds the `k=v` text of
      every tag whose value is not `None` (an empty string is kept) and of no
      other. */
  lemma KeyListsNonNoneTags(measurement: string, tags: Tags, realText: real -> string)
    requires |tags| > 0
    ensures var fs := SortBag(multiset(TagPairs(tags, realText)));
      && MakeSeriesKey(measurement, tags, realText) == Strip(measurement + "," + Join(",", fs))
      && Sorted(fs)
      && (forall i :: 0 <= i < |tags| && !tags[i].1.Nil? ==> TagText(tags[i], realText) in fs)
      && (forall x :: x in fs ==>
           exists i :: 0 <= i < |tags| && !tags[i].1.Nil? && x == TagText(tags[i], realText))
  {
    var ps := TagPairs(tags, realText);
    var fs := SortBag(multiset(ps));
    TagPairsMembers(tags, realText);
    forall x ensures x in fs <==> x in ps {
      assert x in fs <==> x in multiset(fs);
      assert x in ps <==> x in multiset(ps);
    }
  }

  lemma {:induction false} TagPairsAllNone(tags: Tags, realText: real -> string)
    requires forall i :: 0 <= i < |tags| ==> tags[i].1.Nil?
    ensures TagPairs(tags, realText) == []
  {
    if |tags| > 0 { TagPairsAllNone(tags[1..], realText); }
  }

  /** Tags that are all `None` still leave the comma after the measurement:
      the emptiness test looks at the tags before they are filtered. */
  lemma AllNoneTagsKeepComma(measurement: string, tags: Tags, realText: real -> string)
    requires |tags| > 0 && forall i :: 0 <= i < |tags| ==> tags[i].1.Nil?
    requires |measurement| > 0 && !IsSpace(measurement[0])
    ensures MakeSeriesKey(measurement, tags, realText) == measurement + ","
  {
    TagPairsAllNone(tags, realText);
    assert SortBag(multiset([])) == [];
  }

  lemma TagPairsOne(t: (string, Value), realText: real -> string)
    ensures TagPairs([t], realText) == if t.1.Nil? then [] else [TagText(t, realText)]
  {
    assert [t][1..] == [];
  }

  lemma TagPairsTwo(t: (string, Value), u: (string, Value), realText: real -> string)
    ensures TagPairs([t, u], realText) == TagPairs([t], realText) + TagPairs([u], realText)
  {
    TagPairsAppend([t], [u], realText);
    assert [t] + [u] == [t, u];
  }

  /** The key, once the tag texts and their sorted order are known. */
  lemma KeyFromSorted(measurement: string, tags: Tags, realText: real -> string,
                      sorted: seq<string>, key: string)
    requires |tags| > 0
    requires Sorted(sorted) && multiset(sorted) == multiset(TagPairs(tags, realText))
    requires key == measurement + "," + Join(",", sorted)
    requires !IsSpace(key[0]) && !IsSpace(key[|key| - 1])
    ensures MakeSeriesKey(measurement, tags, realText) == key
  {
    SortIsUnique(TagPairs(tags, realText), sorted);
  }

  lemma JoinTwo(x: string, y: string)
    ensures Join(",", [x, y]) == x + "," + y
  {
    assert [x, y][1..] == [y];
  }

  /** Worked examples of the key format. The inputs are parameters fixed by
      the preconditions, which keeps the verifier from unfolding the sort on
      literal arguments. */
  lemma KeyExampleOneTag(realText: real -> string, m: string, t: (string, Value))
    requires m == "my_measurement" && t == ("mytag", Str("myval"))
    ensures MakeSeriesKey(m, [t], realText) == "my_measurement,mytag=myval"
  {
    TagPairsOne(t, realText);
    var text := TagText(t, realText);
    assert text == "mytag=myval";
    OneTagKeyText(m, text, "my_measurement,mytag=myval");
    KeyFromSorted(m, [t], realText, [text], "my_measurement,mytag=myval");
  }

  lemma KeyExampleIntegerTag(realText: real -> string, m: string, t: (string, Value))
    requires m == "my_measurement" && t == ("mytag", Int(12))
    ensures MakeSeriesKey(m, [t], realText) == "my_measurement,mytag=12"
  {
    TwelveText(t.1.i);
    TagPairsOne(t, realText);
    var text := TagText(t, realText);
    assert text == "mytag=12";
    OneTagKeyText(m, text, "my_measurement,mytag=12");
    KeyFromSorted(m, [t], realText, [text], "my_measurement,mytag=12");
  }

  lemma OneTagKeyText(m: string, text: string, key: string)
    requires key == m + "," + text
    ensures key == m + "," + Join(",", [text])
  {
  }

  lemma TwelveText(n: int)
    requires n == 12
    ensures IntText(n) == "12"
  {
    assert NatText(1) == "1";
    assert NatText(n) == NatText(1) + "2";
  }

  lemma KeyExampleTwoTags(realText: real -> string, m: string, t: (string, Value), u: (string, Value))
    requires m == "m" && t == ("b", Str("2")) && u == ("a", Str("1"))
    ensures MakeSeriesKey(m, [t, u], realText) == "m,a=1,b=2"
  {
    TwoTagPairs(t, u, realText);
    TwoTagKey(m);
    KeyFromSorted(m, [t, u], realText, ["a=1", "b=2"], "m,a=1,b=2");
  }

  lemma TwoTagKey(m: string)
    requires m == "m"
    ensures Sorted(["a=1", "b=2"]) && multiset(["a=1", "b=2"]) == multiset(["b=2", "a=1"])
    ensures "m,a=1,b=2" == m + "," + Join(",", ["a=1", "b=2"])
  {
    assert Below("a=1", "b=2");
    JoinTwo("a=1", "b=2");
  }

  lemma TwoTagPairs(t: (string, Value), u: (string, Value), realText: real -> string)
    requires t == ("b", Str("2")) && u == ("a", Str("1"))
    ensures TagPairs([t, u], realText) == ["b=2", "a=1"]
  {
    TagPairsTwo(t, u, realText);
    TagPairsOne(t, realText);
    TagPairsOne(u, realText);
    assert TagText(t, realText) == "b=2" && TagText(u, realText) == "a=1";
  }

  lemma KeyExampleNoneAndEmpty(realText: real -> string, m: string, t: (string, Value), u: (string, Value))
    requires m == "m" && t == ("a", Nil) && u == ("b", Str(""))
    ensures MakeSeriesKey(m, [t, u], realText) == "m,b="
  {
    NoneAndEmptyPairs(t, u, realText);
    OneTagKeyText(m, "b=", "m,b=");
    KeyFromSorted(m, [t, u], realText, ["b="], "m,b=");
  }

  lemma NoneAndEmptyPairs(t: (string, Value), u: (string, Value), realText: real -> string)
    requires t == ("a", Nil) && u == ("b", Str(""))
    ensures TagPairs([t, u], realText) == ["b="]
  {
    TagPairsTwo(t, u, realText);
    TagPairsOne(t, realText);
    TagPairsOne(u, realText);
    assert TagText(u, realText) == "b=";
  }

  lemma KeyExampleAllNone(realText: real -> string, m: string, t: (string, Value))
    requires m == "m" && t == ("a", Nil)
    ensures MakeSeriesKey(m, [t], realText) == "m,"
  {
    AllNoneTagsKeepComma(m, [t], realText);
  }
}
