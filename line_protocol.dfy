/** The InfluxDB line that `Series._to_line_protocol` (basescript/stats.py)
    writes for a series: the key, the sorted comma-joined `name=value` texts of
    every field, counter, gauge and timer statistic, and the timestamp. The
    dictionaries it reads are iterated in an order Python does not fix, so the
    field texts are described as a multiset, which the sort makes into one
    line. */
module LineProtocol {
  import opened Values
  import opened Text
  import opened Timers

  /** `'%s%s=%s' % (prefix, k, v)` */
  function FieldText(prefix: string, k: string, v: Value, realText: real -> string): string {
    prefix + k + "=" + Render(v, realText)
  }

  /** The field texts of the entries of one dictionary, each entry once. */
  ghost function EntriesBag(prefix: string, m: map<string, Value>, realText: real -> string): (b: multiset<string>)
    ensures |b| == |m|
    decreases |m|
  {
    if |m| == 0 then multiset{}
    else
      var k :| k in m;
      multiset{FieldText(prefix, k, m[k], realText)} + EntriesBag(prefix, m - {k}, realText)
  }

  /** Any entry can be taken out first: the texts do not depend on the order
      the dictionary is walked in. */
  lemma {:induction false} EntriesBagRemove(prefix: string, m: map<string, Value>, k: string, realText: real -> string)
    requires k in m
    ensures EntriesBag(prefix, m, realText) ==
      multiset{FieldText(prefix, k, m[k], realText)} + EntriesBag(prefix, m - {k}, realText)
    decreases |m|
  {
    var j :| j in m && EntriesBag(prefix, m, realText) ==
      multiset{FieldText(prefix, j, m[j], realText)} + EntriesBag(prefix, m - {j}, realText);
    if j != k {
      var mj, mk := m - {j}, m - {k};
      assert mj - {k} == mk - {j};
      EntriesBagRemove(prefix, mj, k, realText);
      EntriesBagRemove(prefix, mk, j, realText);
    }
  }

  /** Each entry has its text in the bag, and the bag holds nothing else. */
  lemma {:induction false} EntriesBagMembers(prefix: string, m: map<string, Value>, realText: real -> string)
    ensures forall k :: k in m ==> FieldText(prefix, k, m[k], realText) in EntriesBag(prefix, m, realText)
    ensures forall x :: x in EntriesBag(prefix, m, realText) ==>
      exists k :: k in m && x == FieldText(prefix, k, m[k], realText)
    decreases |m|
  {
    forall k | k in m ensures FieldText(prefix, k, m[k], realText) in EntriesBag(prefix, m, realText) {
      EntriesBagRemove(prefix, m, k, realText);
    }
    if |m| > 0 {
      var k :| k in m;
      var rest := m - {k};
      EntriesBagRemove(prefix, m, k, realText);
      EntriesBagMembers(prefix, rest, realText);
      forall x | x in EntriesBag(prefix, m, realText)
        ensures exists k' :: k' in m && x == FieldText(prefix, k', m[k'], realText)
      {
        if x != FieldText(prefix, k, m[k], realText) {
          assert x in EntriesBag(prefix, rest, realText);
          var k' :| k' in rest && x == FieldText(prefix, k', rest[k'], realText);
          assert k' in m && m[k'] == rest[k'];
        }
      }
    }
  }

  /** `self._counters` as the values they are rendered from. */
  function CounterValues(c: map<string, int>): (m: map<string, Value>)
    ensures m.Keys == c.Keys && forall k :: k in c ==> m[k] == Int(c[k])
  {
    map k | k in c :: Int(c[k])
  }

  /** The `t_<timer>_<statistic>` texts of every timer's summary. */
  ghost function TimersBag(timers: map<string, seq<int>>, realText: real -> string): multiset<string>
    decreases |timers|
  {
    if |timers| == 0 then multiset{}
    else
      var t :| t in timers;
      EntriesBag("t_" + t + "_", SummaryFields(TimerAggregates(timers[t])), realText)
        + TimersBag(timers - {t}, realText)
  }

  lemma {:induction false} TimersBagRemove(timers: map<string, seq<int>>, t: string, realText: real -> string)
    requires t in timers
    ensures TimersBag(timers, realText) ==
      EntriesBag("t_" + t + "_", SummaryFields(TimerAggregates(timers[t])), realText)
        + TimersBag(timers - {t}, realText)
    decreases |timers|
  {
    var j :| j in timers && TimersBag(timers, realText) ==
      EntriesBag("t_" + j + "_", SummaryFields(TimerAggregates(timers[j])), realText)
        + TimersBag(timers - {j}, realText);
    if j != t {
      var tj, tt := timers - {j}, timers - {t};
      assert tj - {t} == tt - {j};
      TimersBagRemove(tj, t, realText);
      TimersBagRemove(tt, j, realText);
    }
  }

  /** Every statistic of every timer has its `t_<timer>_<statistic>` text
      among the timer texts, and nothing else is there. */
  lemma {:induction false} TimersBagMembers(timers: map<string, seq<int>>, realText: real -> string)
    ensures forall t, k :: t in timers && k in SummaryFields(TimerAggregates(timers[t])) ==>
      FieldText("t_" + t + "_", k, SummaryFields(TimerAggregates(timers[t]))[k], realText) in TimersBag(timers, realText)
    ensures forall x :: x in TimersBag(timers, realText) ==>
      exists t, k :: (t in timers && k in SummaryFields(TimerAggregates(timers[t])) &&
                      x == FieldText("t_" + t + "_", k, SummaryFields(TimerAggregates(timers[t]))[k], realText))
    decreases |timers|
  {
    if |timers| > 0 {
      var t :| t in timers;
      var rest := timers - {t};
      var stats := SummaryFields(TimerAggregates(timers[t]));
      TimersBagRemove(timers, t, realText);
      TimersBagMembers(rest, realText);
      EntriesBagMembers("t_" + t + "_", stats, realText);
      forall t', k | t' in timers && k in SummaryFields(TimerAggregates(timers[t']))
        ensures FieldText("t_" + t' + "_", k, SummaryFields(TimerAggregates(timers[t']))[k], realText)
                in TimersBag(timers, realText)
      {
        if t' != t {
          assert t' in rest && rest[t'] == timers[t'];
        }
      }
      forall x | x in TimersBag(timers, realText)
        ensures exists t', k :: (t' in timers && k in SummaryFields(TimerAggregates(timers[t'])) &&
                  x == FieldText("t_" + t' + "_", k, SummaryFields(TimerAggregates(timers[t']))[k], realText))
      {
        if x in EntriesBag("t_" + t + "_", stats, realText) {
          var k :| k in stats && x == FieldText("t_" + t + "_", k, stats[k], realText);
        } else {
          assert x in TimersBag(rest, realText);
          var t', k :| t' in rest && k in SummaryFields(TimerAggregates(rest[t'])) &&
            x == FieldText("t_" + t' + "_", k, SummaryFields(TimerAggregates(rest[t']))[k], realText);
          assert t' in timers && timers[t'] == rest[t'];
        }
      }
    }
  }

  /** Every field text of a series: plain fields as they are, counters with
      `c_`, gauges with `g_` and timer statistics with `t_<timer>_`. */
  ghost function FieldsBag(fields: map<string, Value>, counters: map<string, int>, gauges: map<string, Value>,
                           timers: map<string, seq<int>>, realText: real -> string): multiset<string>
  {
    EntriesBag("", fields, realText) + EntriesBag("c_", CounterValues(counters), realText)
      + EntriesBag("g_", gauges, realText) + TimersBag(timers, realText)
  }

  /** `'%s %s %s' % (key, ','.join(sorted(fields)), ts)`: the line starts
      with the key and a space and ends with a space and the timestamp. */
  ghost function Line(key: string, bag: multiset<string>, ts: int): (r: string)
    ensures |key| + |IntText(ts)| + 2 <= |r|
    ensures r[..|key| + 1] == key + " "
    ensures r[|r| - |IntText(ts)| - 1..] == " " + IntText(ts)
  {
    var fs, t := Join(",", SortBag(bag)), IntText(ts);
    SpaceSeparated(key, fs, t);
    key + " " + fs + " " + t
  }

  lemma SpaceSeparated(a: string, b: string, c: string)
    ensures |a| + |c| + 2 <= |a + " " + b + " " + c|
    ensures (a + " " + b + " " + c)[..|a| + 1] == a + " "
    ensures (a + " " + b + " " + c)[|a + " " + b + " " + c| - |c| - 1..] == " " + c
  {
    var r := a + " " + b + " " + c;
    assert r == (a + " ") + (b + " " + c);
    assert r == (a + " " + b) + (" " + c);
  }
}
