/** One series of metrics: `Series` (basescript/stats.py), a mutable object
    holding the counters, gauges, timers and plain fields recorded since the
    last dump. Points in time are whole nanoseconds since the Unix epoch,
    supplied by the caller in place of the clock `_now()`. */
module SeriesData {
  import opened Values
  import opened Text
  import opened Timers
  import opened Timestamps
  import opened LineProtocol

  /** The value of `d.get(k, 0)` for a dictionary of numbers. */
  function Get(d: map<string, int>, k: string): int {
    if k in d then d[k] else 0
  }

  /** `self._counters` after `count(**kw)`: each named counter grows by its
      argument, counters seen for the first time start from zero. */
  function AddCounts(c: map<string, int>, kw: map<string, int>): (r: map<string, int>)
    ensures r.Keys == c.Keys + kw.Keys
  {
    map k | k in c.Keys + kw.Keys :: Get(kw, k) + Get(c, k)
  }

  /** `self._timers` after `time(**kw)`: each named timer gets the new sample
      at the end of its list, timers seen for the first time start empty. */
  function AppendSamples(t: map<string, seq<int>>, kw: map<string, int>): (r: map<string, seq<int>>)
    ensures r.Keys == t.Keys + kw.Keys
  {
    map k | k in t.Keys + kw.Keys :: (if k in t then t[k] else []) + (if k in kw then [kw[k]] else [])
  }

  /** Everything a series holds apart from its key. */
  datatype SeriesState = SeriesState(
    lastAccessed: int,
    modified: bool,
    counters: map<string, int>,
    gauges: map<string, Value>,
    timers: map<string, seq<int>>,
    fields: map<string, Value>)

  /** A series with nothing recorded (`_reset`), last accessed at `now`. */
  function Blank(now: int): SeriesState {
    SeriesState(now, false, map[], map[], map[], map[])
  }

  /** `_reset()`: drops every recorded value; the access time stays. */
  function Cleared(st: SeriesState): SeriesState {
    Blank(st.lastAccessed)
  }

  /** The timestamp a line carries: `ts` when it is given and not zero,
      otherwise `now` converted to `precision`. */
  function Stamp(ts: Option<int>, now: int, precision: string): (r: Result<int>)
    ensures ts.Some? && ts.value != 0 ==> r == Ok(ts.value)
    ensures (ts.None? || ts.value == 0) ==> r == ConvertTimestamp(now, precision)
  {
    if ts.Some? && ts.value != 0 then Ok(ts.value) else ConvertTimestamp(now, precision)
  }

  /** `_to_line_protocol(ts, precision)` of a series with key `key` in state
      `st`. */
  ghost function LineOf(key: string, st: SeriesState, ts: Option<int>, now: int, precision: string,
                        realText: real -> string): Result<string>
  {
    match Stamp(ts, now, precision)
    case Ok(t) => Ok(Line(key, FieldsBag(st.fields, st.counters, st.gauges, st.timers, realText), t))
    case Err(e) => Err(e)
  }

  /** What `==` may be given: a series or any other value. */
  datatype Operand = SeriesObj(s: Series) | Other(v: Value)

  class Series {
    const key: string
    var lastAccessed: int
    var modified: bool
    var counters: map<string, int>
    var gauges: map<string, Value>
    var timers: map<string, seq<int>>
    var fields: map<string, Value>

    function State(): SeriesState
      reads this
    {
      SeriesState(lastAccessed, modified, counters, gauges, timers, fields)
    }

    /** `Series(series_key)` */
    constructor(seriesKey: string, now: int)
      ensures key == seriesKey && State() == Blank(now)
    {
      key := seriesKey;
      lastAccessed := now;
      modified := false;
      counters, gauges, timers, fields := map[], map[], map[], map[];
    }

    /** `_reset()` */
    method Reset()
      modifies this
      ensures State() == Cleared(old(State()))
    {
      modified := false;
      counters, gauges, timers, fields := map[], map[], map[], map[];
    }

    /** `fields(**kw)`: the latest value of each named field wins. */
    method Fields(kw: map<string, Value>, now: int) returns (s: Series)
      modifies this
      ensures s == this
      ensures State() == old(State()).(lastAccessed := now, modified := true, fields := old(fields) + kw)
    {
      modified := true;
      lastAccessed := now;
      fields := Overwrite(fields, kw);
      return this;
    }

    /** `count(**kw)`: adds each argument to its counter. */
    method Count(kw: map<string, int>, now: int) returns (s: Series)
      modifies this
      ensures s == this
      ensures State() == old(State()).(lastAccessed := now, modified := true,
                                       counters := AddCounts(old(counters), kw))
    {
      modified := true;
      lastAccessed := now;
      counters := Accumulate(counters, kw);
      return this;
    }

    /** `gauge(**kw)`: the latest value of each named gauge wins. */
    method Gauge(kw: map<string, Value>, now: int) returns (s: Series)
      modifies this
      ensures s == this
      ensures State() == old(State()).(lastAccessed := now, modified := true, gauges := old(gauges) + kw)
    {
      modified := true;
      lastAccessed := now;
      gauges := Overwrite(gauges, kw);
      return this;
    }

    /** `time(**kw)`: appends each argument to its timer's samples. */
    method Time(kw: map<string, int>, now: int) returns (s: Series)
      modifies this
      ensures s == this
      ensures State() == old(State()).(lastAccessed := now, modified := true,
                                       timers := AppendSamples(old(timers), kw))
    {
      modified := true;
      lastAccessed := now;
      timers := Append(timers, kw);
      return this;
    }

    /** `_to_line_protocol(ts, precision)`: the field texts are collected
        dictionary by dictionary, sorted and joined; a missing or zero `ts`
        is replaced by `now` at the given precision, and an unknown precision
        is then an error. */
    method ToLineProtocol(ts: Option<int>, now: int, precision: string, realText: real -> string)
      returns (r: Result<string>)
      ensures r == LineOf(key, State(), ts, now, precision, realText)
    {
      var out: seq<string> := [];
      out := AppendEntries(out, "", fields, realText);
      ghost var a := multiset(out);
      out := AppendEntries(out, "c_", CounterValues(counters), realText);
      ghost var b := multiset(out);
      out := AppendEntries(out, "g_", gauges, realText);
      ghost var c := multiset(out);
      out := AppendTimers(out, timers, realText);
      ghost var bag := FieldsBag(fields, counters, gauges, timers, realText);
      assert multiset(out) == bag by {
        assert a == EntriesBag("", fields, realText);
        assert b == a + EntriesBag("c_", CounterValues(counters), realText);
        assert c == b + EntriesBag("g_", gauges, realText);
        assert multiset(out) == c + TimersBag(timers, realText);
      }
      var stamp := Stamp(ts, now, precision);
      if stamp.Err? {
        return Err(stamp.message);
      }
      assert LineOf(key, State(), ts, now, precision, realText) == Ok(Line(key, bag, stamp.value));
      return Ok(key + " " + Join(",", SortBag(multiset(out))) + " " + IntText(stamp.value));
    }

    /** `__eq__`: two series are equal when their keys are; a series equals
        nothing else. */
    predicate Equals(o: Operand)
      ensures Equals(o) ==> o.SeriesObj?
    {
      o.SeriesObj? && o.s.key == key
    }

    /** `__neq__` as written: `not self == 0`. */
    predicate NotEqualsAsWritten(o: Operand)
      ensures NotEqualsAsWritten(o)
    {
      !Equals(Other(Int(0)))
    }

    /** `__neq__` as evidently intended: `not self == o`. */
    predicate NotEquals(o: Operand) {
      !Equals(o)
    }

    /** As written, `__neq__` calls every operand different from the series,
        the series itself included, although `__eq__` finds it equal. */
    lemma NotEqualsAsWrittenHoldsForItself()
      ensures Equals(SeriesObj(this)) && NotEqualsAsWritten(SeriesObj(this))
    {
    }

    /** As intended, `__neq__` is the complement of `__eq__`: it is false for
        exactly the series with the same key. */
    lemma NotEqualsComplementsEquals(o: Operand)
      ensures !NotEquals(o) <==> o.SeriesObj? && o.s.key == key
      ensures !NotEquals(SeriesObj(this))
      ensures o.Other? ==> NotEquals(o)
    {
    }
  }

  /** `__eq__` is an equivalence on series, and equal series have equal keys,
      so they agree with `__hash__`, which hashes the key. */
  lemma EqualsIsEquivalence(a: Series, b: Series, c: Series)
    ensures a.Equals(SeriesObj(a))
    ensures a.Equals(SeriesObj(b)) <==> b.Equals(SeriesObj(a))
    ensures a.Equals(SeriesObj(b)) && b.Equals(SeriesObj(c)) ==> a.Equals(SeriesObj(c))
    ensures a.Equals(SeriesObj(b)) ==> a.key == b.key
  {
  }

  /** `for k, v in kw.iteritems(): d[k] = v` */
  method Overwrite(d: map<string, Value>, kw: map<string, Value>) returns (r: map<string, Value>)
    ensures r == d + kw
  {
    r := d;
    var rest := kw;
    while |rest| > 0
      invariant rest.Keys <= kw.Keys && forall k :: k in rest ==> rest[k] == kw[k]
      invariant forall k :: k in r <==> k in d || (k in kw && k !in rest)
      invariant forall k :: k in r ==> r[k] == if k in kw && k !in rest then kw[k] else d[k]
      decreases |rest|
    {
      var k :| k in rest;
      r := r[k := rest[k]];
      rest := rest - {k};
    }
    SameUpdate(d, kw, r);
  }

  lemma SameUpdate(d: map<string, Value>, kw: map<string, Value>, r: map<string, Value>)
    requires forall k :: k in r <==> k in d || k in kw
    requires forall k :: k in r ==> r[k] == if k in kw then kw[k] else d[k]
    ensures r == d + kw
  {
  }

  /** `for k, v in kw.iteritems(): c[k] = v + c.get(k, 0)` */
  method Accumulate(c: map<string, int>, kw: map<string, int>) returns (r: map<string, int>)
    ensures r == AddCounts(c, kw)
  {
    r := c;
    var rest := kw;
    while |rest| > 0
      invariant rest.Keys <= kw.Keys && forall k :: k in rest ==> rest[k] == kw[k]
      invariant forall k :: k in r <==> k in c || (k in kw && k !in rest)
      invariant forall k :: k in r ==> r[k] == (if k in kw && k !in rest then kw[k] else 0) + Get(c, k)
      decreases |rest|
    {
      var k :| k in rest;
      r := r[k := rest[k] + Get(r, k)];
      rest := rest - {k};
    }
    SameCounts(c, kw, r);
  }

  lemma SameCounts(c: map<string, int>, kw: map<string, int>, r: map<string, int>)
    requires forall k :: k in r <==> k in c || k in kw
    requires forall k :: k in r ==> r[k] == (if k in kw then kw[k] else 0) + Get(c, k)
    ensures r == AddCounts(c, kw)
  {
  }

  /** `for k, v in kw.iteritems(): t.setdefault(k, []).append(v)` */
  method Append(t: map<string, seq<int>>, kw: map<string, int>) returns (r: map<string, seq<int>>)
    ensures r == AppendSamples(t, kw)
  {
    r := t;
    var rest := kw;
    while |rest| > 0
      invariant rest.Keys <= kw.Keys && forall k :: k in rest ==> rest[k] == kw[k]
      invariant forall k :: k in r <==> k in t || (k in kw && k !in rest)
      invariant forall k :: k in r ==>
        r[k] == (if k in t then t[k] else []) + (if k in kw && k !in rest then [kw[k]] else [])
      decreases |rest|
    {
      var k :| k in rest;
      r := r[k := (if k in r then r[k] else []) + [rest[k]]];
      rest := rest - {k};
    }
    SameSamples(t, kw, r);
  }

  lemma SameSamples(t: map<string, seq<int>>, kw: map<string, int>, r: map<string, seq<int>>)
    requires forall k :: k in r <==> k in t || k in kw
    requires forall k :: k in r ==> r[k] == (if k in t then t[k] else []) + (if k in kw then [kw[k]] else [])
    ensures r == AppendSamples(t, kw)
  {
  }

  /** The statistics texts of every timer, appended in the order the timers
      are walked. */
  method AppendTimers(out: seq<string>, timers: map<string, seq<int>>, realText: real -> string)
    returns (r: seq<string>)
    ensures multiset(r) == multiset(out) + TimersBag(timers, realText)
  {
    r := out;
    var rest := timers;
    while |rest| > 0
      invariant rest.Keys <= timers.Keys && forall t :: t in rest ==> rest[t] == timers[t]
      invariant multiset(r) + TimersBag(rest, realText) == multiset(out) + TimersBag(timers, realText)
      decreases |rest|
    {
      var t :| t in rest;
      TimersBagRemove(rest, t, realText);
      var agg := AggregateTimerValues(rest[t]);
      r := AppendEntries(r, "t_" + t + "_", SummaryFields(agg), realText);
      rest := rest - {t};
    }
    assert rest == map[];
  }

  /** The field texts of one dictionary, appended in the order the dictionary
      is walked. */
  method AppendEntries(out: seq<string>, prefix: string, m: map<string, Value>, realText: real -> string)
    returns (r: seq<string>)
    ensures multiset(r) == multiset(out) + EntriesBag(prefix, m, realText)
  {
    r := out;
    var rest := m;
    while |rest| > 0
      invariant rest.Keys <= m.Keys && forall k :: k in rest ==> rest[k] == m[k]
      invariant multiset(r) + EntriesBag(prefix, rest, realText) == multiset(out) + EntriesBag(prefix, m, realText)
      decreases |rest|
    {
      var k :| k in rest;
      EntriesBagRemove(prefix, rest, k, realText);
      r := r + [FieldText(prefix, k, rest[k], realText)];
      rest := rest - {k};
    }
    assert rest == map[];
  }
  /** Counting is additive: two `count` calls leave each counter grown by
      both arguments, whichever call came first. */
  lemma CountsAccumulate(c: map<string, int>, a: map<string, int>, b: map<string, int>)
    ensures var r := AddCounts(AddCounts(c, a), b);
      && r == AddCounts(AddCounts(c, b), a)
      && r.Keys == c.Keys + a.Keys + b.Keys
      && forall k :: k in r ==> r[k] == Get(c, k) + Get(a, k) + Get(b, k)
  {
    var r, r' := AddCounts(AddCounts(c, a), b), AddCounts(AddCounts(c, b), a);
    forall k | k in r ensures r[k] == Get(c, k) + Get(a, k) + Get(b, k) == r'[k] {
    }
  }

  /** The counters of the source's counter test: `count(tests=5, exams=2)`,
      then `count(tests=2)`, then `count(tests=-5)`. */
  lemma CountExample(first: map<string, int>, second: map<string, int>, third: map<string, int>)
    requires first == map["tests" := 5, "exams" := 2]
    requires second == map["tests" := 2] && third == map["tests" := -5]
    ensures AddCounts(map[], first) == map["tests" := 5, "exams" := 2]
    ensures AddCounts(AddCounts(map[], first), second) == map["tests" := 7, "exams" := 2]
    ensures AddCounts(AddCounts(AddCounts(map[], first), second), third) == map["tests" := 2, "exams" := 2]
  {
    var one := map["tests" := 5, "exams" := 2];
    var two := map["tests" := 7, "exams" := 2];
    AddCountsIs(map[], first, one);
    AddCountsIs(one, second, two);
    AddCountsIs(two, third, map["tests" := 2, "exams" := 2]);
  }

  /** `AddCounts` pinned down key by key. */
  lemma AddCountsIs(c: map<string, int>, kw: map<string, int>, r: map<string, int>)
    requires r.Keys == c.Keys + kw.Keys
    requires forall k :: k in r ==> r[k] == Get(kw, k) + Get(c, k)
    ensures AddCounts(c, kw) == r
  {
  }

  /** The samples a timer holds after `time(**a)` and then `time(**b)`. */
  lemma {:induction false} TwoTimeCalls(t: map<string, seq<int>>, a: map<string, int>, b: map<string, int>, k: string)
    requires k in t || k in a || k in b
    ensures AppendSamples(AppendSamples(t, a), b)[k] ==
      (if k in t then t[k] else []) + (if k in a then [a[k]] else []) + (if k in b then [b[k]] else [])
  {
  }

  /** One timer after `time(**a); time(**b)` and after `time(**b); time(**a)`:
      the same samples, so the same summary. */
  lemma {:induction false} TimeCallsCommuteAt(t: map<string, seq<int>>, a: map<string, int>, b: map<string, int>, k: string)
    requires k in AppendSamples(AppendSamples(t, a), b)
    ensures && multiset(AppendSamples(AppendSamples(t, a), b)[k]) == multiset(AppendSamples(AppendSamples(t, b), a)[k])
            && TimerAggregates(AppendSamples(AppendSamples(t, a), b)[k]) == TimerAggregates(AppendSamples(AppendSamples(t, b), a)[k])
  {
    var base, p, q := if k in t then t[k] else [], if k in a then [a[k]] else [], if k in b then [b[k]] else [];
    TwoTimeCalls(t, a, b, k);
    TwoTimeCalls(t, b, a, k);
    SwapTails(base, p, q);
    AggregateIgnoresOrder(base + p + q, base + q + p);
  }

  lemma SwapTails(base: seq<int>, p: seq<int>, q: seq<int>)
    ensures multiset(base + p + q) == multiset(base + q + p)
  {
  }

  /** Each timer keeps its samples in arrival order, so its summary after two
      `time` calls does not depend on which came first. */
  lemma TimeCallsCommute(t: map<string, seq<int>>, a: map<string, int>, b: map<string, int>)
    ensures AppendSamples(AppendSamples(t, a), b).Keys == AppendSamples(AppendSamples(t, b), a).Keys
    ensures forall k :: k in AppendSamples(AppendSamples(t, a), b) ==>
      && multiset(AppendSamples(AppendSamples(t, a), b)[k]) == multiset(AppendSamples(AppendSamples(t, b), a)[k])
      && TimerAggregates(AppendSamples(AppendSamples(t, a), b)[k]) == TimerAggregates(AppendSamples(AppendSamples(t, b), a)[k])
  {
    TimeCallsSameTimers(t, a, b);
    forall k | k in AppendSamples(AppendSamples(t, a), b) {
      TimeCallsCommuteAt(t, a, b, k);
    }
  }

  lemma TimeCallsSameTimers(t: map<string, seq<int>>, a: map<string, int>, b: map<string, int>)
    ensures AppendSamples(AppendSamples(t, a), b).Keys == AppendSamples(AppendSamples(t, b), a).Keys
  {
  }

  /** The samples of the source's timer test: `time(user_time=100)`, then
      `time(user_time=300)`. */
  lemma TimeExample(first: map<string, int>, second: map<string, int>)
    requires first == map["user_time" := 100] && second == map["user_time" := 300]
    ensures AppendSamples(map[], first) == map["user_time" := [100]]
    ensures AppendSamples(AppendSamples(map[], first), second) == map["user_time" := [100, 300]]
  {
    var one := AppendSamples(map[], first);
    assert one.Keys == {"user_time"} && one["user_time"] == [] + [100] == [100];
    SingleEntry(one, "user_time", [100]);
    var two := AppendSamples(one, second);
    assert two.Keys == {"user_time"} && two["user_time"] == [100] + [300] == [100, 300];
    SingleEntry(two, "user_time", [100, 300]);
  }

  lemma SingleEntry<V>(m: map<string, V>, k: string, v: V)
    requires m.Keys == {k} && m[k] == v
    ensures m == map[k := v]
  {
  }

  /** The sorted field texts of a series' line. */
  ghost function LineFields(st: SeriesState, realText: real -> string): seq<string> {
    SortBag(FieldsBag(st.fields, st.counters, st.gauges, st.timers, realText))
  }

  /** The line of a series lists the text of every plain field, counter
      and gauge, and every statistic of every timer. */
  lemma LineListsEverything(st: SeriesState, realText: real -> string)
    ensures forall k :: k in st.fields ==> FieldText("", k, st.fields[k], realText) in LineFields(st, realText)
    ensures forall k :: k in st.counters ==> FieldText("c_", k, Int(st.counters[k]), realText) in LineFields(st, realText)
    ensures forall k :: k in st.gauges ==> FieldText("g_", k, st.gauges[k], realText) in LineFields(st, realText)
    ensures forall t, k :: t in st.timers && k in SummaryFields(TimerAggregates(st.timers[t])) ==>
      FieldText("t_" + t + "_", k, SummaryFields(TimerAggregates(st.timers[t]))[k], realText) in LineFields(st, realText)
  {
    PlainFieldsListed(st, realText);
    CountersListed(st, realText);
    GaugesListed(st, realText);
    TimersListed(st, realText);
  }

  lemma PlainFieldsListed(st: SeriesState, realText: real -> string)
    ensures forall k :: k in st.fields ==> FieldText("", k, st.fields[k], realText) in LineFields(st, realText)
  {
    SortBagMembers(FieldsBag(st.fields, st.counters, st.gauges, st.timers, realText));
    EntriesBagMembers("", st.fields, realText);
  }

  lemma CountersListed(st: SeriesState, realText: real -> string)
    ensures forall k :: k in st.counters ==> FieldText("c_", k, Int(st.counters[k]), realText) in LineFields(st, realText)
  {
    SortBagMembers(FieldsBag(st.fields, st.counters, st.gauges, st.timers, realText));
    CounterMembers(st.counters, realText);
  }

  lemma GaugesListed(st: SeriesState, realText: real -> string)
    ensures forall k :: k in st.gauges ==> FieldText("g_", k, st.gauges[k], realText) in LineFields(st, realText)
  {
    SortBagMembers(FieldsBag(st.fields, st.counters, st.gauges, st.timers, realText));
    EntriesBagMembers("g_", st.gauges, realText);
  }

  lemma TimersListed(st: SeriesState, realText: real -> string)
    ensures forall t, k :: t in st.timers && k in SummaryFields(TimerAggregates(st.timers[t])) ==>
      FieldText("t_" + t + "_", k, SummaryFields(TimerAggregates(st.timers[t]))[k], realText) in LineFields(st, realText)
  {
    SortBagMembers(FieldsBag(st.fields, st.counters, st.gauges, st.timers, realText));
    TimersBagMembers(st.timers, realText);
  }

  /** Nothing else is on the line. */
  lemma LineListsNothingElse(st: SeriesState, realText: real -> string)
    ensures forall x :: x in LineFields(st, realText) ==>
      || (exists k :: k in st.fields && x == FieldText("", k, st.fields[k], realText))
      || (exists k :: k in st.counters && x == FieldText("c_", k, Int(st.counters[k]), realText))
      || (exists k :: k in st.gauges && x == FieldText("g_", k, st.gauges[k], realText))
      || (exists t, k :: (t in st.timers && k in SummaryFields(TimerAggregates(st.timers[t])) &&
                          x == FieldText("t_" + t + "_", k, SummaryFields(TimerAggregates(st.timers[t]))[k], realText)))
  {
    var bag := FieldsBag(st.fields, st.counters, st.gauges, st.timers, realText);
    SortBagMembers(bag);
    EntriesBagMembers("", st.fields, realText);
    CounterMembers(st.counters, realText);
    EntriesBagMembers("g_", st.gauges, realText);
    TimersBagMembers(st.timers, realText);
  }

  lemma CounterMembers(c: map<string, int>, realText: real -> string)
    ensures forall k :: k in c ==> FieldText("c_", k, Int(c[k]), realText) in EntriesBag("c_", CounterValues(c), realText)
    ensures forall x :: x in EntriesBag("c_", CounterValues(c), realText) ==>
      exists k :: k in c && x == FieldText("c_", k, Int(c[k]), realText)
  {
    var cv := CounterValues(c);
    EntriesBagMembers("c_", cv, realText);
    forall x | x in EntriesBag("c_", cv, realText) ensures exists k :: k in c && x == FieldText("c_", k, Int(c[k]), realText) {
      var k :| k in cv && x == FieldText("c_", k, cv[k], realText);
      assert k in c && cv[k] == Int(c[k]);
    }
  }
}
