/** Grouping of metric log events (basescript/log.py): the structlog
    processor `metrics_grouping_processor` folds every ungrouped metric event
    into a running average per group and drops it, and the drain inside
    `dump_metrics` takes the accumulated groups and turns each back into one
    event. The module-level `METRICS_STATE` dictionary is the `groups` field of
    a `MetricsState` object. */
module MetricsGrouping {
  import opened Values
  import opened Text

  /** A structlog event dictionary. */
  type Event = map<string, Value>

  /** What a processor does with an event: hands it on (possibly changed) or
      raises `DropEvent`. */
  datatype Outcome = Pass(event: Event) | Drop

  /** The group of a metric event: its non-numeric entries and the names of
      its numeric ones. The source keys the group by the sorted tuple of the
      pairs and the sorted tuple of the names; both are sorted by key, so a
      map and a set identify a group exactly as those tuples do. */
  datatype GroupKey = GroupKey(pairs: map<string, Value>, names: set<string>)

  /** One group's state: `{"num": num, "fields": fields}`. */
  datatype Group = Group(num: nat, fields: map<string, real>)

  /** What the processor does with an event, before any state is touched. */
  datatype Step = Forward(event: Event) | Accumulate(key: GroupKey, values: map<string, real>)

  /** Keys removed from a metric event before grouping. */
  predicate Volatile(k: string) {
    k == "timestamp" || k == "type" || k == "id" || StartsWith(k, "_")
  }

  /** The event without `timestamp`, `type`, `id` and `_`-prefixed keys. */
  function Cleaned(e: Event): (c: Event)
    ensures forall k :: k in c <==> k in e && !Volatile(k)
    ensures forall k :: k in c ==> c[k] == e[k]
  {
    map k | k in e && !Volatile(k) :: e[k]
  }

  /** The group of a cleaned event: numbers and booleans are fields, every
      other entry is part of the key. */
  function KeyOf(c: Event): GroupKey {
    GroupKey(map k | k in c && !IsNumber(c[k]) :: c[k], set k | k in c && IsNumber(c[k]))
  }

  /** The numeric entries of a cleaned event, as numbers. */
  function FieldValues(c: Event): map<string, real> {
    map k | k in c && IsNumber(c[k]) :: NumOf(c[k])
  }

  /** `metrics_grouping_processor(_, _, e)` before the state update: a
      `logged_metric` event is retyped to `metric`; an event of any other type
      but `metric` is handed on; a metric event marked `__grouped__` is
      handed on without the mark; any other metric event is grouped. */
  function Classify(e: Event): (r: Step)
    ensures r.Forward? ==> forall k :: k in e && k != "__grouped__" ==> k in r.event
    ensures r.Forward? ==> forall k :: k in r.event && k != "type" ==> k in e && r.event[k] == e[k]
    ensures r.Accumulate? ==> r.values.Keys == r.key.names
    ensures r.Accumulate? ==> forall k :: k in r.key.pairs ==> k !in r.key.names
  {
    if "type" in e && e["type"] == Str("logged_metric") then Forward(e["type" := Str("metric")])
    else if !("type" in e && e["type"] == Str("metric")) then Forward(e)
    else if "__grouped__" in e && Truthy(e["__grouped__"]) then Forward(e - {"__grouped__"})
    else
      var c := Cleaned(e);
      Accumulate(KeyOf(c), FieldValues(c))
  }

  /** `sfields.get(fk, 0.0)` */
  function Average(fields: map<string, real>, f: string): real {
    if f in fields then fields[f] else 0.0
  }

  /** `(avg * num + v) / (num + 1)`: the moving average after one more
      value. */
  function Moved(avg: real, num: nat, v: real): (r: real)
    ensures num == 0 ==> r == v
    ensures avg <= v ==> avg <= r <= v
    ensures v <= avg ==> v <= r <= avg
  {
    var n := num as real;
    assert (avg * n + v) / (n + 1.0) == avg + (v - avg) / (n + 1.0);
    (avg * n + v) / (n + 1.0)
  }

  /** `sfields` after the moving-average loop over the event's fields, with
      `num` events seen before. */
  function Averaged(sfields: map<string, real>, num: nat, values: map<string, real>): (r: map<string, real>)
    ensures r.Keys == sfields.Keys + values.Keys
    ensures forall f :: f in sfields && f !in values ==> r[f] == sfields[f]
  {
    sfields + map f | f in values :: Moved(Average(sfields, f), num, values[f])
  }

  /** A group after one more event with these field values. */
  function Absorb(g: Group, values: map<string, real>): Group {
    Group(g.num + 1, Averaged(g.fields, g.num, values))
  }

  /** `METRICS_STATE.get(key, {"num": 0, "fields": {}})` */
  function GroupOf(groups: map<GroupKey, Group>, k: GroupKey): Group {
    if k in groups then groups[k] else Group(0, map[])
  }

  /** The averaged fields as event values. */
  function AverageValues(fields: map<string, real>): (r: Event)
    ensures r.Keys == fields.Keys
  {
    map f | f in fields :: Real(fields[f])
  }

  /** The call the drain makes for one group: the level names the logger
      method, `event` is the message and `kw` the keyword arguments. */
  datatype Emission = Emission(level: Value, event: Value, kw: Event)

  /** One turn of the drain loop: `d = dict(pairs); d.update(fields)`, then
      `level` and `event` are popped (a `KeyError` when missing) and the call
      adds `type`, `__grouped__` and `num` (a `TypeError` when `d` already
      holds one of them). */
  function Emit(k: GroupKey, g: Group): (r: Result<Emission>)
    ensures r.Ok? ==> "level" !in r.value.kw && "event" !in r.value.kw
    ensures r.Ok? ==> && "type" in r.value.kw && r.value.kw["type"] == Str("metric")
                      && "__grouped__" in r.value.kw && r.value.kw["__grouped__"] == Bool(true)
                      && "num" in r.value.kw && r.value.kw["num"] == Int(g.num)
    ensures r.Ok? ==> forall x :: x in k.pairs && x != "level" && x != "event" && x !in g.fields ==>
      x in r.value.kw && r.value.kw[x] == k.pairs[x]
  {
    var d := k.pairs + AverageValues(g.fields);
    if "level" !in d then Err("KeyError: level")
    else if "event" !in d then Err("KeyError: event")
    else
      var rest := d - {"level", "event"};
      if "type" in rest || "__grouped__" in rest || "num" in rest then Err("TypeError: repeated keyword argument")
      else Ok(Emission(d["level"], d["event"],
                       rest["type" := Str("metric")]["__grouped__" := Bool(true)]["num" := Int(g.num)]))
  }

  /** The event dictionary the logger builds from an emission: the keyword
      arguments, the level the called logger method records and the event. */
  function EventOf(em: Emission): Event {
    em.kw["level" := em.level]["event" := em.event]
  }

  /** `out` are the emissions of the groups named by `order`, one each. */
  ghost predicate EmittedInOrder(groups: map<GroupKey, Group>, out: seq<Emission>, order: seq<GroupKey>) {
    && |out| == |order|
    && (forall i, j :: 0 <= i < j < |order| ==> order[i] != order[j])
    && (forall i :: 0 <= i < |order| ==> order[i] in groups && Emit(order[i], groups[order[i]]) == Ok(out[i]))
  }

  class MetricsState {
    /** `METRICS_STATE` */
    var groups: map<GroupKey, Group>

    constructor()
      ensures groups == map[]
    {
      groups := map[];
    }

    /** `metrics_grouping_processor(_, _, e)`: an event that is handed on
        leaves the state alone; a grouped event is absorbed into its group
        and dropped. */
    method Process(e: Event) returns (r: Outcome)
      modifies this
      ensures Classify(e).Forward? ==> r == Pass(Classify(e).event) && groups == old(groups)
      ensures Classify(e).Accumulate? ==>
        var k := Classify(e).key;
        r == Drop && groups == old(groups)[k := Absorb(GroupOf(old(groups), k), Classify(e).values)]
    {
      if "type" in e && e["type"] == Str("logged_metric") {
        return Pass(e["type" := Str("metric")]);
      }
      if !("type" in e && e["type"] == Str("metric")) {
        return Pass(e);
      }
      if "__grouped__" in e && Truthy(e["__grouped__"]) {
        return Pass(e - {"__grouped__"});
      }
      var key, values := Partition(Cleaned(e));
      var state := GroupOf(groups, key);
      var sfields := UpdateAverages(state.fields, state.num, values);
      groups := groups[key := Group(state.num + 1, sfields)];
      return Drop;
    }

    /** The drain of `dump_metrics`: the state is swapped for an empty one,
        then each group is emitted in turn. The first group that cannot be
        emitted raises, which ends the drain and loses the groups not yet
        emitted. */
    method Drain() returns (out: seq<Emission>, ghost order: seq<GroupKey>, failed: bool)
      modifies this
      ensures groups == map[]
      ensures EmittedInOrder(old(groups), out, order)
      ensures !failed ==> forall k :: k in old(groups) <==> k in order
      ensures failed ==> exists k :: k in old(groups) && k !in order && Emit(k, old(groups)[k]).Err?
    {
      var m := groups;
      groups := map[];
      var rest := m.Keys;
      out, order, failed := [], [], false;
      while rest != {} && !failed
        invariant rest <= m.Keys
        invariant EmittedInOrder(m, out, order)
        invariant forall k :: k in order ==> k in m && k !in rest
        invariant !failed ==> forall k :: k in m && k !in rest ==> k in order
        invariant failed ==> exists k :: k in m && k !in order && Emit(k, m[k]).Err?
        decreases rest
      {
        var k :| k in rest;
        var em := Emit(k, m[k]);
        if em.Err? {
          failed := true;
        } else {
          out, order := out + [em.value], order + [k];
        }
        rest := rest - {k};
      }
    }
  }

  /** The partition loop `for k, v in sorted(event.items())`: numbers and
      booleans go to the fields, every other pair to the key. The source
      walks the items in sorted order so that its key tuples come out sorted;
      the partition itself does not depend on the order, and the loop here
      takes the keys in any order. */
  method Partition(c: Event) returns (key: GroupKey, values: map<string, real>)
    ensures key == KeyOf(c) && values == FieldValues(c)
  {
    var pairs: map<string, Value> := map[];
    var names: set<string> := {};
    values := map[];
    var rest := c.Keys;
    while |rest| > 0
      invariant rest <= c.Keys
      invariant forall k :: k in pairs <==> k in c && k !in rest && !IsNumber(c[k])
      invariant forall k :: k in pairs ==> pairs[k] == c[k]
      invariant forall k :: k in names <==> k in c && k !in rest && IsNumber(c[k])
      invariant forall k :: k in values <==> k in names
      invariant forall k :: k in values ==> values[k] == NumOf(c[k])
      decreases |rest|
    {
      var k :| k in rest;
      if IsNumber(c[k]) {
        names := names + {k};
        values := values[k := NumOf(c[k])];
      } else {
        pairs := pairs[k := c[k]];
      }
      rest := rest - {k};
    }
    key := GroupKey(pairs, names);
    SamePartition(c, pairs, names, values);
  }

  lemma SamePartition(c: Event, pairs: map<string, Value>, names: set<string>, values: map<string, real>)
    requires forall k :: k in pairs <==> k in c && !IsNumber(c[k])
    requires forall k :: k in pairs ==> pairs[k] == c[k]
    requires forall k :: k in names <==> k in c && IsNumber(c[k])
    requires forall k :: k in values <==> k in names
    requires forall k :: k in values ==> values[k] == NumOf(c[k])
    ensures GroupKey(pairs, names) == KeyOf(c) && values == FieldValues(c)
  {
  }

  /** The moving-average loop `for fk, fv in fields`. */
  method UpdateAverages(sfields: map<string, real>, num: nat, values: map<string, real>)
    returns (r: map<string, real>)
    ensures r == Averaged(sfields, num, values)
  {
    r := sfields;
    var rest := values.Keys;
    while |rest| > 0
      invariant rest <= values.Keys
      invariant forall f :: f in r <==> f in sfields || (f in values && f !in rest)
      invariant forall f :: f in r ==>
        r[f] == if f in values && f !in rest then Moved(Average(sfields, f), num, values[f])
                else sfields[f]
      decreases |rest|
    {
      var f :| f in rest;
      r := r[f := Moved(Average(sfields, f), num, values[f])];
      rest := rest - {f};
    }
    SameAverages(sfields, num, values, r);
  }

  lemma SameAverages(sfields: map<string, real>, num: nat, values: map<string, real>, r: map<string, real>)
    requires forall f :: f in r <==> f in sfields || f in values
    requires forall f :: f in r ==>
      r[f] == if f in values then Moved(Average(sfields, f), num, values[f]) else sfields[f]
    ensures r == Averaged(sfields, num, values)
  {
  }

  /** Events that are not grouped: a `logged_metric` event only has its type
      changed to `metric`; an event of any other type but `metric`, or
      without a type, is handed on as it is; a metric event marked
      `__grouped__` only loses the mark. Every other event is grouped and
      so dropped. */
  lemma Routing(e: Event)
    ensures "type" in e && e["type"] == Str("logged_metric") ==>
      Classify(e) == Forward(e["type" := Str("metric")]) && Classify(e).event - {"type"} == e - {"type"}
    ensures !("type" in e && e["type"] in {Str("logged_metric"), Str("metric")}) ==> Classify(e) == Forward(e)
    ensures "type" in e && e["type"] == Str("metric") && "__grouped__" in e && Truthy(e["__grouped__"]) ==>
      Classify(e) == Forward(e - {"__grouped__"})
    ensures Classify(e).Accumulate? <==>
      "type" in e && e["type"] == Str("metric") && !("__grouped__" in e && Truthy(e["__grouped__"]))
  {
  }

  /** A grouped event's entries, once `timestamp`, `type`, `id` and the
      `_`-prefixed keys are gone, each land in exactly one of the key pairs
      (unchanged) and the field names (as numbers): numbers and booleans are
      fields, everything else is key. */
  lemma PartitionSplits(e: Event)
    requires Classify(e).Accumulate?
    ensures var key, values := Classify(e).key, Classify(e).values;
      && (forall k :: k in key.pairs ==> k in e && !Volatile(k) && !IsNumber(e[k]) && key.pairs[k] == e[k])
      && (forall k :: k in key.names ==> k in e && !Volatile(k) && IsNumber(e[k]) && values[k] == NumOf(e[k]))
      && (forall k :: k in e && !Volatile(k) ==> (k in key.pairs <==> k !in key.names))
      && values.Keys == key.names
  {
  }

  /** Grouping ignores `timestamp`, `type`, `id` and the `_`-prefixed keys:
      two ungrouped metric events that agree on every other entry are
      grouped alike, with the same field values. */
  lemma VolatileKeysIgnored(e1: Event, e2: Event)
    requires Classify(e1).Accumulate? && Classify(e2).Accumulate?
    requires forall k :: !Volatile(k) ==> (k in e1 <==> k in e2)
    requires forall k :: !Volatile(k) && k in e1 ==> e1[k] == e2[k]
    ensures Classify(e1) == Classify(e2)
  {
    assert Cleaned(e1) == Cleaned(e2);
  }

  /** Two metric events fall in the same group exactly when they agree on
      their non-numeric entries and have the same numeric field names. */
  lemma SameGroup(e1: Event, e2: Event)
    requires Classify(e1).Accumulate? && Classify(e2).Accumulate?
    ensures Classify(e1).key == Classify(e2).key <==>
      var c1, c2 := Cleaned(e1), Cleaned(e2);
      && (forall k :: k in c1 && !IsNumber(c1[k]) <==> k in c2 && !IsNumber(c2[k]))
      && (forall k :: k in c1 && !IsNumber(c1[k]) ==> c1[k] == c2[k])
      && (forall k :: k in c1 && IsNumber(c1[k]) <==> k in c2 && IsNumber(c2[k]))
  {
    var c1, c2 := Cleaned(e1), Cleaned(e2);
    assert Classify(e1).key == KeyOf(c1) && Classify(e2).key == KeyOf(c2);
    KeysAgree(c1, c2);
  }

  lemma KeysAgree(c1: Event, c2: Event)
    ensures KeyOf(c1) == KeyOf(c2) <==>
      && (forall k :: k in c1 && !IsNumber(c1[k]) <==> k in c2 && !IsNumber(c2[k]))
      && (forall k :: k in c1 && !IsNumber(c1[k]) ==> c1[k] == c2[k])
      && (forall k :: k in c1 && IsNumber(c1[k]) <==> k in c2 && IsNumber(c2[k]))
  {
    if (forall k :: k in c1 && !IsNumber(c1[k]) <==> k in c2 && !IsNumber(c2[k]))
       && (forall k :: k in c1 && !IsNumber(c1[k]) ==> c1[k] == c2[k])
       && (forall k :: k in c1 && IsNumber(c1[k]) <==> k in c2 && IsNumber(c2[k]))
    {
      KeysAgreeIfEntriesAgree(c1, c2);
    }
    if KeyOf(c1) == KeyOf(c2) {
      EntriesAgreeIfKeysAgree(c1, c2);
    }
  }

  lemma KeysAgreeIfEntriesAgree(c1: Event, c2: Event)
    requires forall k :: k in c1 && !IsNumber(c1[k]) <==> k in c2 && !IsNumber(c2[k])
    requires forall k :: k in c1 && !IsNumber(c1[k]) ==> c1[k] == c2[k]
    requires forall k :: k in c1 && IsNumber(c1[k]) <==> k in c2 && IsNumber(c2[k])
    ensures KeyOf(c1) == KeyOf(c2)
  {
    assert KeyOf(c1).pairs == KeyOf(c2).pairs;
    assert KeyOf(c1).names == KeyOf(c2).names;
  }

  lemma EntriesAgreeIfKeysAgree(c1: Event, c2: Event)
    requires KeyOf(c1) == KeyOf(c2)
    ensures forall k :: k in c1 && !IsNumber(c1[k]) <==> k in c2 && !IsNumber(c2[k])
    ensures forall k :: k in c1 && !IsNumber(c1[k]) ==> c1[k] == c2[k]
    ensures forall k :: k in c1 && IsNumber(c1[k]) <==> k in c2 && IsNumber(c2[k])
  {
    var k1 := KeyOf(c1);
    forall k ensures (k in c1 && !IsNumber(c1[k]) <==> k in c2 && !IsNumber(c2[k])) {
      assert k in c1 && !IsNumber(c1[k]) <==> k in k1.pairs;
    }
    forall k ensures (k in c1 && IsNumber(c1[k]) <==> k in c2 && IsNumber(c2[k])) {
      assert k in c1 && IsNumber(c1[k]) <==> k in k1.names;
    }
    forall k | k in c1 && !IsNumber(c1[k]) ensures c1[k] == c2[k] {
      assert k1.pairs[k] == c1[k];
    }
  }

  /** The group after absorbing the field values of a run of events, one by
      one, from nothing. */
  function Folded(vss: seq<map<string, real>>): Group {
    if |vss| == 0 then Group(0, map[]) else Absorb(Folded(vss[..|vss| - 1]), vss[|vss| - 1])
  }

  /** The total of one field over a run of events. */
  function Total(vss: seq<map<string, real>>, f: string): real
    requires forall i :: 0 <= i < |vss| ==> f in vss[i]
  {
    if |vss| == 0 then 0.0 else Total(vss[..|vss| - 1], f) + vss[|vss| - 1][f]
  }

  /** After `n` events of one group the group counts `n`, and each of its
      fields holds the arithmetic mean of the `n` values seen: the moving
      average `(avg * num + v) / (num + 1)` starting from `0.0` is the mean,
      because every event of a group has the same field names. */
  lemma {:induction false} GroupAverages(vss: seq<map<string, real>>, names: set<string>)
    requires forall i :: 0 <= i < |vss| ==> vss[i].Keys == names
    ensures Folded(vss).num == |vss|
    ensures |vss| > 0 ==> Folded(vss).fields.Keys == names
    ensures |vss| > 0 ==> forall f :: f in names ==> Folded(vss).fields[f] == Total(vss, f) / |vss| as real
  {
    if |vss| > 0 {
      var init, v := vss[..|vss| - 1], vss[|vss| - 1];
      GroupAverages(init, names);
      var prev := Folded(init);
      assert Folded(vss) == Absorb(prev, v);
      forall f | f in names ensures Folded(vss).fields[f] == Total(vss, f) / |vss| as real {
        var t := Total(init, f);
        assert Total(vss, f) == t + v[f];
        AverageStep(prev, t, |init|, v, f);
      }
    }
  }

  /** One more event moves the average of a field from the mean of the
      values before it to the mean including it. */
  lemma AverageStep(prev: Group, t: real, n: nat, v: map<string, real>, f: string)
    requires prev.num == n && f in v
    requires n == 0 ==> prev.fields == map[] && t == 0.0
    requires n > 0 ==> f in prev.fields && prev.fields[f] == t / n as real
    ensures Absorb(prev, v).fields[f] == (t + v[f]) / (n + 1) as real
  {
    AveragedAt(prev.fields, n, v, f);
    MeanStep(Average(prev.fields, f), t, n, v[f]);
  }

  lemma AveragedAt(sfields: map<string, real>, num: nat, values: map<string, real>, f: string)
    requires f in values
    ensures Averaged(sfields, num, values)[f] == Moved(Average(sfields, f), num, values[f])
  {
  }

  /** `(avg * n + x) / (n + 1)` with `avg` the mean of `n` values totalling
      `t` (and `0.0` before any value) is the mean including `x`. */
  lemma MeanStep(avg: real, t: real, n: nat, x: real)
    requires n == 0 ==> avg == 0.0 && t == 0.0
    requires n > 0 ==> avg == t / n as real
    ensures Moved(avg, n, x) == (t + x) / (n + 1) as real
  {
    assert avg * n as real == t;
  }

  /** A drained group comes back as the event it summarises: the key pairs
      and the averaged fields, with `level` and `event` taken out for the
      call, and `type="metric"`, `__grouped__=True` and `num` added. */
  lemma EmitRestoresGroup(k: GroupKey, g: Group)
    requires Emit(k, g).Ok?
    ensures var em := Emit(k, g).value;
      var d := k.pairs + AverageValues(g.fields);
      && (em.kw - {"type", "__grouped__", "num"})["level" := em.level]["event" := em.event] == d
      && em.kw["type"] == Str("metric") && em.kw["__grouped__"] == Bool(true) && em.kw["num"] == Int(g.num)
  {
    var em := Emit(k, g).value;
    var d := k.pairs + AverageValues(g.fields);
    var lhs := (em.kw - {"type", "__grouped__", "num"})["level" := em.level]["event" := em.event];
    assert lhs.Keys == d.Keys;
    assert forall x :: x in d ==> lhs[x] == d[x];
  }

  /** A group is emitted exactly when its entries hold a `level` and an
      `event` and none is named `num`; the other names the call adds, `type`
      and `__grouped__`, never survive grouping. */
  lemma EmitSucceeds(e: Event, g: Group)
    requires Classify(e).Accumulate? && g.fields.Keys == Classify(e).key.names
    ensures var k := Classify(e).key;
      var d := k.pairs + AverageValues(g.fields);
      Emit(k, g).Ok? <==> "level" in d && "event" in d && "num" !in d
  {
    var k := Classify(e).key;
    assert "type" !in k.pairs && "__grouped__" !in k.pairs && "type" !in k.names && "__grouped__" !in k.names by {
      assert Volatile("type");
      assert StartsWith("__grouped__", "_");
    }
  }

  /** The event a drained group is logged as is handed on by the grouping
      processor without its `__grouped__` mark: it is never grouped again. */
  lemma EmittedEventPassesThrough(k: GroupKey, g: Group)
    requires Emit(k, g).Ok?
    ensures var ev := EventOf(Emit(k, g).value);
      Classify(ev) == Forward(ev - {"__grouped__"})
  {
    var ev := EventOf(Emit(k, g).value);
    assert ev["type"] == Str("metric") && ev["__grouped__"] == Bool(true);
    assert Str("metric") != Str("logged_metric") by {
      assert |"metric"| != |"logged_metric"|;
    }
  }

  /** A drain that does not fail emits one event per group. */
  lemma DrainCount(groups: map<GroupKey, Group>, out: seq<Emission>, order: seq<GroupKey>)
    requires EmittedInOrder(groups, out, order)
    requires forall k :: k in groups <==> k in order
    ensures |out| == |groups|
  {
    DistinctCount(order);
    assert groups.Keys == set k | k in order;
  }
}
