/** The registry of series: `Stats` (basescript/stats.py). `measure` finds or
    creates the series for a measurement and its tags, with the global tags
    given at construction always added; `dump_stats` writes one line per
    series modified since the last dump, clears those series and drops the
    ones left untouched for a minute. */
module StatsRegistry {
  import opened Values
  import opened Text
  import opened Timestamps
  import opened SeriesKeys
  import opened SeriesData

  /** `DORMANT_DURATION`: one minute, in nanoseconds. */
  const DormantNanos: int := 60 * NanosPerSecond

  /** The tags kept from `Stats(log, **tags)`: the ones whose value is a
      non-empty string. */
  function GlobalTags(kw: map<string, Value>): (r: map<string, Value>)
    ensures forall k :: k in r ==> k in kw && r[k] == kw[k]
  {
    map k | k in kw && kw[k].Str? && |kw[k].s| > 0 :: kw[k]
  }

  /** The tags of a map as keyword arguments, in sorted key order. */
  function TagList(m: map<string, Value>): (r: Tags)
    ensures |r| == |m|
    ensures forall i :: 0 <= i < |r| ==> r[i].0 in m && r[i].1 == m[r[i].0]
    ensures forall k :: k in m ==> (k, m[k]) in r
  {
    SortedKeys(m);
    TagsOf(SortBag(multiset(m.Keys)), m)
  }

  lemma SortedKeys(m: map<string, Value>)
    ensures var ks := SortBag(multiset(m.Keys)); |ks| == |m| && forall k :: k in ks <==> k in m
  {
    var ks := SortBag(multiset(m.Keys));
    SortBagMembers(multiset(m.Keys));
    assert |ks| == |multiset(m.Keys)|;
  }

  function TagsOf(ks: seq<string>, m: map<string, Value>): (r: Tags)
    requires forall k :: k in ks ==> k in m
    ensures |r| == |ks|
    ensures forall i :: 0 <= i < |r| ==> r[i] == (ks[i], m[ks[i]])
    ensures forall k :: k in ks ==> (k, m[k]) in r
  {
    if |ks| == 0 then [] else [(ks[0], m[ks[0]])] + TagsOf(ks[1..], m)
  }

  /** The key `measure(measurement, **tags)` looks up: the global tags are
      merged over the given ones, so they win a conflict. */
  function MeasureKey(measurement: string, tags: map<string, Value>, globals: map<string, Value>,
                      realText: real -> string): string
  {
    MakeSeriesKey(measurement, TagList(tags + globals), realText)
  }

  /** Whether `dump_stats` at `now` keeps a series in state `st`. */
  predicate Kept(st: SeriesState, now: int) {
    st.modified || now - st.lastAccessed < DormantNanos
  }

  /** A series after the dump has looked at it: cleared if it was modified. */
  function Flushed(st: SeriesState): SeriesState {
    if st.modified then Cleared(st) else st
  }

  /** The series states after `dump_stats` at `now`. */
  function Dumped(m: map<string, SeriesState>, now: int): (r: map<string, SeriesState>)
    ensures r.Keys <= m.Keys
  {
    map k | k in m && Kept(m[k], now) :: Flushed(m[k])
  }

  /** `lines` are the lines of the series modified in `m`, one each, written
      for the series named by `order` at the same index. */
  ghost predicate LinesOfModified(m: map<string, SeriesState>, now: int, realText: real -> string,
                                  lines: seq<string>, order: seq<string>)
  {
    && |order| == |lines|
    && (forall i, j :: 0 <= i < j < |order| ==> order[i] != order[j])
    && (forall k :: k in order <==> k in m && m[k].modified)
    && (forall i :: 0 <= i < |order| ==> WritesLine(m, order[i], now, realText, lines[i]))
  }

  /** `lines` are the lines of the series of `done` that were modified in
      `m`, written for the series named by `order` at the same index. */
  ghost predicate LinesSoFar(m: map<string, SeriesState>, now: int, realText: real -> string,
                             lines: seq<string>, order: seq<string>, done: set<string>)
  {
    && |order| == |lines|
    && (forall i, j :: 0 <= i < j < |order| ==> order[i] != order[j])
    && (forall k :: k in order <==> k in done && k in m && m[k].modified)
    && (forall i :: 0 <= i < |order| ==> WritesLine(m, order[i], now, realText, lines[i]))
  }

  /** The bookkeeping of one more series looked at by the dump. */
  lemma LinesStep(m: map<string, SeriesState>, now: int, realText: real -> string,
                  lines: seq<string>, order: seq<string>, done: set<string>, k: string, line: string)
    requires LinesSoFar(m, now, realText, lines, order, done)
    requires k !in done && k in m && m[k].modified && WritesLine(m, k, now, realText, line)
    ensures LinesSoFar(m, now, realText, lines + [line], order + [k], done + {k})
  {
  }

  lemma LinesSkip(m: map<string, SeriesState>, now: int, realText: real -> string,
                  lines: seq<string>, order: seq<string>, done: set<string>, k: string)
    requires LinesSoFar(m, now, realText, lines, order, done)
    requires k in m && !m[k].modified
    ensures LinesSoFar(m, now, realText, lines, order, done + {k})
  {
  }

  /** `line` is what the dump at `now` writes for the series `k` of `m`. */
  ghost predicate WritesLine(m: map<string, SeriesState>, k: string, now: int, realText: real -> string, line: string) {
    k in m && LineOf(k, m[k], Some(MillisTimestamp(now)), now, "ms", realText) == Ok(line)
  }

  class Stats {
    /** `self.tags` */
    const tags: map<string, Value>
    /** `self.series_map` */
    var seriesMap: map<string, Series>

    /** Every series is stored under its own key. */
    predicate Valid()
      reads this
    {
      forall k :: k in seriesMap ==> seriesMap[k].key == k
    }

    ghost function States(): map<string, SeriesState>
      reads this, seriesMap.Values
    {
      map k | k in seriesMap :: seriesMap[k].State()
    }

    /** `Stats(log, **kw)` */
    constructor(kw: map<string, Value>)
      ensures Valid()
      ensures tags == GlobalTags(kw) && seriesMap == map[]
    {
      tags := GlobalTags(kw);
      seriesMap := map[];
    }

    /** `measure(measurement, **tags)`: the series stored under the key, or a
        new blank one stored there. */
    method Measure(measurement: string, tags: map<string, Value>, now: int, realText: real -> string)
      returns (s: Series)
      requires Valid()
      modifies this
      ensures Valid()
      ensures s.key == MeasureKey(measurement, tags, this.tags, realText)
      ensures s.key in old(seriesMap) ==> s == old(seriesMap)[s.key] && seriesMap == old(seriesMap)
      ensures s.key !in old(seriesMap) ==>
        fresh(s) && s.State() == Blank(now) && seriesMap == old(seriesMap)[s.key := s]
    {
      var key := MeasureKey(measurement, tags, this.tags, realText);
      if key in seriesMap {
        s := seriesMap[key];
      } else {
        s := new Series(key, now);
        seriesMap := seriesMap[key := s];
      }
    }

    /** `dump_stats()` at `now`: every modified series gives its line with
        the millisecond timestamp of `now` and is cleared; an unmodified
        series last accessed a minute or more ago is dropped. */
    method DumpStats(now: int, realText: real -> string) returns (lines: seq<string>, ghost order: seq<string>)
      requires Valid()
      modifies this, seriesMap.Values
      ensures Valid()
      ensures forall k :: k in seriesMap ==> k in old(seriesMap) && seriesMap[k] == old(seriesMap[k])
      ensures States() == Dumped(old(States()), now)
      ensures forall k :: k in old(seriesMap) ==> old(seriesMap)[k].State() == Flushed(old(States())[k])
      ensures LinesOfModified(old(States()), now, realText, lines, order)
    {
      ghost var before := States();
      var series := seriesMap;
      var toDelete;
      lines, order, toDelete := FlushAll(series, before, now, realText);
      seriesMap := map k | k in series && k !in toDelete :: series[k];
      DumpedStates(series, seriesMap, before, toDelete, now);
    }
  }

  /** `toDelete` lists the series of `done` that were dormant in `m`. */
  ghost predicate DormantSoFar(m: map<string, SeriesState>, now: int, toDelete: set<string>, done: set<string>) {
    forall k :: k in toDelete <==> k in done && k in m && !Kept(m[k], now)
  }

  /** The loop of `dump_stats` over `series_map`: writes and clears every
      modified series and lists the dormant ones in `toDelete`. */
  method FlushAll(series: map<string, Series>, ghost before: map<string, SeriesState>, now: int,
                  realText: real -> string)
    returns (lines: seq<string>, ghost order: seq<string>, toDelete: set<string>)
    requires forall k :: k in series ==> series[k].key == k
    requires before.Keys == series.Keys && forall k :: k in series ==> series[k].State() == before[k]
    modifies series.Values
    ensures forall k :: k in series ==> series[k].State() == Flushed(before[k])
    ensures forall k :: k in toDelete <==> k in series && !Kept(before[k], now)
    ensures LinesOfModified(before, now, realText, lines, order)
  {
    var rest := series.Keys;
    ghost var done: set<string> := {};
    toDelete := {};
    lines, order := [], [];
    while rest != {}
      invariant rest <= series.Keys && done == series.Keys - rest
      invariant forall k :: k in series ==> series[k].State() == if k in rest then before[k] else Flushed(before[k])
      invariant DormantSoFar(before, now, toDelete, done)
      invariant LinesSoFar(before, now, realText, lines, order, done)
      decreases rest
    {
      var k :| k in rest;
      lines, order, toDelete := Visit(series[k], before, done, now, realText, lines, order, toDelete);
      forall j | j in series && j != k ensures series[j] != series[k] {
        assert series[j].key == j;
      }
      rest, done := rest - {k}, done + {k};
    }
  }

  /** One turn of the loop of `dump_stats`: a modified series gives its line
      (with the millisecond timestamp of `now`) and is reset; an unmodified
      one last accessed a minute or more before `now` is listed for deletion. */
  method Visit(s: Series, ghost before: map<string, SeriesState>, ghost done: set<string>, now: int,
               realText: real -> string, lines: seq<string>, ghost order: seq<string>, toDelete: set<string>)
    returns (lines': seq<string>, ghost order': seq<string>, toDelete': set<string>)
    requires s.key in before && s.key !in done && s.State() == before[s.key]
    requires LinesSoFar(before, now, realText, lines, order, done)
    requires DormantSoFar(before, now, toDelete, done)
    modifies s
    ensures s.State() == Flushed(before[s.key])
    ensures LinesSoFar(before, now, realText, lines', order', done + {s.key})
    ensures DormantSoFar(before, now, toDelete', done + {s.key})
  {
    lines', order', toDelete' := lines, order, toDelete;
    if s.modified {
      var r := s.ToLineProtocol(Some(MillisTimestamp(now)), now, "ms", realText);
      if r.Err? {
        assert false;
      }
      LinesStep(before, now, realText, lines, order, done, s.key, r.value);
      lines', order' := lines + [r.value], order + [s.key];
      s.Reset();
    } else {
      LinesSkip(before, now, realText, lines, order, done, s.key);
      if now - s.lastAccessed >= DormantNanos {
        toDelete' := toDelete + {s.key};
      }
    }
  }

  lemma DumpedStates(series: map<string, Series>, kept: map<string, Series>, before: map<string, SeriesState>,
                     toDelete: set<string>, now: int)
    requires before.Keys == series.Keys
    requires forall k :: k in series ==> series[k].State() == Flushed(before[k])
    requires forall k :: k in toDelete <==> k in series && !Kept(before[k], now)
    requires kept == map k | k in series && k !in toDelete :: series[k]
    ensures (map k | k in kept :: kept[k].State()) == Dumped(before, now)
  {
  }

  /** The global tags are exactly the non-empty string values given. */
  lemma GlobalTagsAreNonEmptyStrings(kw: map<string, Value>)
    ensures forall k :: k in GlobalTags(kw) <==> k in kw && kw[k].Str? && |kw[k].s| > 0
  {
  }

  /** With at least one tag, the key of `measure` is the stripped text of
      the measurement, a comma and the sorted list holding the `k=v` text of
      every merged tag whose value is not `None`, and of nothing else. */
  lemma MeasureKeyLists(measurement: string, tags: map<string, Value>, globals: map<string, Value>,
                        realText: real -> string)
    requires |tags + globals| > 0
    ensures var merged := tags + globals;
      var fs := SortBag(multiset(TagPairs(TagList(merged), realText)));
      && MeasureKey(measurement, tags, globals, realText) == Strip(measurement + "," + Join(",", fs))
      && Sorted(fs)
      && (forall k :: k in merged && !merged[k].Nil? ==> TagText((k, merged[k]), realText) in fs)
      && (forall x :: x in fs ==> exists k :: k in merged && !merged[k].Nil? && x == TagText((k, merged[k]), realText))
  {
    var merged := tags + globals;
    var ps := TagPairs(TagList(merged), realText);
    TagListTexts(merged, realText);
    assert forall x :: x in SortBag(multiset(ps)) <==> x in ps by {
      SortBagMembers(multiset(ps));
      assert forall x :: x in multiset(ps) <==> x in ps;
    }
  }

  /** The `k=v` texts of the listed tags of a map: one for each entry whose
      value is not `None`, and no other. */
  lemma TagListTexts(merged: map<string, Value>, realText: real -> string)
    ensures var ps := TagPairs(TagList(merged), realText);
      && (forall k :: k in merged && !merged[k].Nil? ==> TagText((k, merged[k]), realText) in ps)
      && (forall x :: x in ps ==> exists k :: k in merged && !merged[k].Nil? && x == TagText((k, merged[k]), realText))
  {
    var l := TagList(merged);
    TagPairsMembers(l, realText);
    forall k | k in merged && !merged[k].Nil? ensures TagText((k, merged[k]), realText) in TagPairs(l, realText) {
      var i :| 0 <= i < |l| && l[i] == (k, merged[k]);
    }
    forall x | x in TagPairs(l, realText)
      ensures exists k :: k in merged && !merged[k].Nil? && x == TagText((k, merged[k]), realText)
    {
      var i :| 0 <= i < |l| && !l[i].1.Nil? && x == TagText(l[i], realText);
      assert l[i] == (l[i].0, merged[l[i].0]);
    }
  }

  /** Every global tag is in the key of every measurement, with its own
      value: a given tag of the same name cannot override it. */
  lemma GlobalTagsInKey(measurement: string, tags: map<string, Value>, kw: map<string, Value>,
                        realText: real -> string)
    requires |tags + GlobalTags(kw)| > 0
    ensures var globals := GlobalTags(kw);
      var fs := SortBag(multiset(TagPairs(TagList(tags + globals), realText)));
      && MeasureKey(measurement, tags, globals, realText) == Strip(measurement + "," + Join(",", fs))
      && forall k :: k in globals ==> TagText((k, globals[k]), realText) in fs
  {
    var globals := GlobalTags(kw);
    MeasureKeyLists(measurement, tags, globals, realText);
    var merged := tags + globals;
    assert forall k :: k in globals ==> k in merged && merged[k] == globals[k] && !merged[k].Nil?;
  }

  /** The order in which the merged tags are passed does not change the key. */
  lemma MeasureKeyIgnoresOrder(measurement: string, tags: map<string, Value>, globals: map<string, Value>,
                               l: Tags, realText: real -> string)
    requires multiset(l) == multiset(TagList(tags + globals))
    ensures MakeSeriesKey(measurement, l, realText) == MeasureKey(measurement, tags, globals, realText)
  {
    KeyIgnoresTagOrder(measurement, l, TagList(tags + globals), realText);
  }

  /** After a dump no series is modified, so a second dump writes nothing;
      every modified series survived it and holds no values; an unmodified one
      survived exactly when it was accessed within the last minute; and no
      access time changed. */
  lemma DumpedProperties(m: map<string, SeriesState>, now: int)
    ensures var r := Dumped(m, now);
      && (forall k :: k in r ==> !r[k].modified && r[k].lastAccessed == m[k].lastAccessed)
      && (forall k :: k in m && m[k].modified ==> k in r && r[k] == Blank(m[k].lastAccessed))
      && (forall k :: k in m && !m[k].modified ==>
            (k in r <==> now - m[k].lastAccessed < DormantNanos) && (k in r ==> r[k] == m[k]))
  {
  }

  /** A dump writes one line per modified series. */
  lemma {:induction false} LinesCount(m: map<string, SeriesState>, now: int, realText: real -> string,
                                      lines: seq<string>, order: seq<string>)
    requires LinesOfModified(m, now, realText, lines, order)
    ensures |lines| == |set k | k in m && m[k].modified|
  {
    var modified := set k | k in m && m[k].modified;
    assert modified == set k | k in order;
    DistinctCount(order);
  }

  /** Dumping again right after a dump writes no lines. */
  lemma SecondDumpWritesNothing(m: map<string, SeriesState>, now: int, later: int, realText: real -> string,
                                lines: seq<string>, order: seq<string>)
    requires LinesOfModified(Dumped(m, now), later, realText, lines, order)
    ensures lines == []
  {
    var r := Dumped(m, now);
    DumpedProperties(m, now);
    assert (set k | k in r && r[k].modified) == {};
    LinesCount(r, later, realText, lines, order);
  }
}
