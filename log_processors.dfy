/** The small event-dictionary processors of basescript/log.py:
    `_structlog_default_keys_processor`, which adds `id`, `type` and `host`,
    and `_structlog_minimal_processor`, which removes them again. The
    processor chain runs the first before the grouping processor and the
    second, when asked for, after it. */
module LogProcessors {
  import opened Values
  import opened MetricsGrouping

  /** Keys the minimal processor removes. */
  const DefaultKeyNames: set<string> := {"host", "id", "type"}

  /** `_structlog_default_keys_processor(_, _, e)`: an `id` (here the given
      one, standing for the time-and-uuid text the source builds) and
      `type="log"` are added when missing, and `host` is always set. */
  function DefaultKeys(e: Event, id: string, host: string): (r: Event)
    ensures r.Keys == e.Keys + DefaultKeyNames
    ensures r["id"] == if "id" in e then e["id"] else Str(id)
    ensures r["type"] == if "type" in e then e["type"] else Str("log")
    ensures r["host"] == Str(host)
    ensures forall k :: k in e && k !in DefaultKeyNames ==> r[k] == e[k]
  {
    var withId := if "id" in e then e else e["id" := Str(id)];
    var withType := if "type" in withId then withId else withId["type" := Str("log")];
    withType["host" := Str(host)]
  }

  /** What the minimal processor leaves of an event. */
  function WithoutDefaultKeys(e: Event): (r: Event)
    ensures forall k :: k in r <==> k in e && k !in DefaultKeyNames
    ensures forall k :: k in r ==> r[k] == e[k]
  {
    e - DefaultKeyNames
  }

  /** `_structlog_minimal_processor(_, _, e)`: the loop over `host`, `id`
      and `type` pops each one present. */
  method Minimal(e: Event) returns (r: Event)
    ensures r == WithoutDefaultKeys(e)
  {
    var names := ["host", "id", "type"];
    r := e;
    for i := 0 to |names|
      invariant forall k :: k in r <==> k in e && k !in names[..i]
      invariant forall k :: k in r ==> r[k] == e[k]
    {
      if names[i] in r {
        r := r - {names[i]};
      }
    }
    assert names[..|names|] == names;
    assert r == WithoutDefaultKeys(e);
  }

  /** The minimal processor undoes the default-keys processor: whatever it
      added or replaced is removed again, and nothing else changed. */
  lemma MinimalUndoesDefaults(e: Event, id: string, host: string)
    ensures WithoutDefaultKeys(DefaultKeys(e, id, host)) == WithoutDefaultKeys(e)
  {
  }

  /** Running the default-keys processor twice with the same host changes
      nothing more than running it once. */
  lemma DefaultKeysIdempotent(e: Event, id: string, id': string, host: string)
    ensures DefaultKeys(DefaultKeys(e, id, host), id', host) == DefaultKeys(e, id, host)
  {
  }

  lemma MinimalIdempotent(e: Event)
    ensures WithoutDefaultKeys(WithoutDefaultKeys(e)) == WithoutDefaultKeys(e)
  {
  }

  /** An event logged without a type becomes a `log` event and the grouping
      processor hands it on unchanged. */
  lemma UntypedEventsPassGrouping(e: Event, id: string, host: string)
    requires "type" !in e
    ensures Classify(DefaultKeys(e, id, host)) == Forward(DefaultKeys(e, id, host))
  {
    var d := DefaultKeys(e, id, host);
    assert d["type"] == Str("log");
    assert Str("log") != Str("metric") && Str("log") != Str("logged_metric") by {
      assert |"log"| != |"metric"| && |"log"| != |"logged_metric"|;
    }
  }

  /** The `id` the default-keys processor gives a metric event does not
      change its group. */
  lemma GeneratedIdIgnored(e: Event, id1: string, id2: string, host: string)
    requires Classify(DefaultKeys(e, id1, host)).Accumulate?
    ensures Classify(DefaultKeys(e, id2, host)) == Classify(DefaultKeys(e, id1, host))
  {
    var d1, d2 := DefaultKeys(e, id1, host), DefaultKeys(e, id2, host);
    assert Volatile("id");
    VolatileKeysIgnored(d1, d2);
  }
}

/** `LevelLogger` (basescript/log.py): a print logger with a threshold
    level. Levels are the integers of Python's `logging` module. */
module Levels {
  import opened Values

  /** `logging.WARNING` */
  const Warning: int := 30

  class LevelLogger {
    var level: int

    /** `LevelLogger(fp, level)`: `level or logging.WARNING`, so both a
        missing level and level 0 give WARNING. */
    constructor(level: Option<int>)
      ensures this.level == if level.None? || level.value == 0 then Warning else level.value
    {
      if level.Some? && level.value != 0 {
        this.level := level.value;
      } else {
        this.level := Warning;
      }
    }

    /** `setLevel(level)` */
    method SetLevel(level: int)
      modifies this
      ensures this.level == level
    {
      this.level := level;
    }

    /** `isEnabledFor(level)` */
    predicate IsEnabledFor(level: int)
      reads this
    {
      level >= this.level
    }

    /** A logger is enabled for its own level and for every higher one, and
        for no lower one. */
    lemma EnabledAbove(l: int, m: int)
      ensures IsEnabledFor(level)
      ensures IsEnabledFor(l) && l <= m ==> IsEnabledFor(m)
      ensures l < level ==> !IsEnabledFor(l)
    {
    }
  }
}
