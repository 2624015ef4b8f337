# basescript metrics and log processing, modelled in Dafny

This project models the metrics core of basescript, a Python library for scripts.

- `basescript/stats.py` collects InfluxDB statistics. A `Stats` registry hands out one `Series` per series key; the key is built from a measurement and its tags.
- A series records four kinds of data:
  - counters, which add up;
  - gauges and plain fields, where the last value wins;
  - timers, which keep every sample.
- `dump_stats` writes one InfluxDB line for every modified series. Each line carries the series key, the sorted field texts and a millisecond timestamp. `dump_stats` then clears those series and forgets the series that have been dormant for a minute.
- Timer samples are summarised as sum, mean, lower, upper and count. With two or more samples a 90th-percentile cut is added: `sum_90`, `mean_90` and `upper_90`.
- `basescript/log.py` contributes the structlog processors this core relies on:
  - the default-keys processor, which adds `id`, `type` and `host`;
  - the minimal processor, which removes them again;
  - the metrics grouping processor, which folds `metric` events into per-group moving averages and drops them;
  - the drain half of `dump_metrics`, which turns every group back into one event marked `__grouped__`;
  - `LevelLogger`'s level handling.

Modules:

| module | file | models |
|---|---|---|
| `Values` | values.dfy | Python values (`str`, `int`, `float`, `bool`, `None`), `%s` rendering of integers, `Option` and `Result` |
| `Text` | text.dfy | Python's string order, `sorted` of strings, `','.join` and `str.strip` |
| `Timers` | timers.dfy | `Series._aggregate_timer_values` |
| `Timestamps` | timestamps.dfy | the precision dispatch of `_convert_timestamp` |
| `SeriesKeys` | series_key.dfy | `Series.make_series_key` |
| `LineProtocol` | line_protocol.dfy | the field texts that `Series._to_line_protocol` writes |
| `SeriesData` | series.dfy | the `Series` class: `_reset`, `fields`, `count`, `gauge`, `time`, `_to_line_protocol`, `__eq__`, `__neq__` |
| `StatsRegistry` | stats.dfy | the `Stats` class: `__init__`, `measure`, `dump_stats` |
| `MetricsGrouping` | metrics.dfy | `metrics_grouping_processor`, `METRICS_STATE` and the drain loop of `dump_metrics` |
| `LogProcessors` | log_processors.dfy | `_structlog_default_keys_processor` and `_structlog_minimal_processor` |
| `Levels` | log_processors.dfy | `LevelLogger.__init__`, `setLevel` and `isEnabledFor` |

Python's dictionaries are iterated in an order the code does not fix. The model therefore states the line of a series over the multiset of its field texts, which the sort turns into a single line. It states the result of a dump as a set of series and the lines written for them, in whatever order the loop took them. Series and the `Stats` registry are classes whose methods update their fields in place. `METRICS_STATE` is a field of a `MetricsState` object. The per-key loops of `fields`, `count`, `time`, `_to_line_protocol`, `_aggregate_timer_values`, the grouping partition, the moving average and `_structlog_minimal_processor` are methods with loop invariants. Each is proved equal to a function that the lemmas are about.

The model follows the code in these places:

- Tags whose value is the empty string stay in the series key (`m,b=`); only `None` drops a tag.
- `dump_stats` catches no error while writing a line. The model proves that the writing cannot fail: the timestamp is always given, in milliseconds.
- `_to_line_protocol` writes whatever fields a series holds, including none at all.

## Model

| member | source | states |
|---|---|---|
| Values.NatText | basescript/stats.py:171-173 | the `%s` text of a natural number is a non-empty string of decimal digits, without a leading zero, and it denotes that number |
| Values.IntText | basescript/stats.py:171-173 | the `%s` text of an integer is its decimal digits without a leading zero, preceded by `-` exactly when the integer is negative |
| Values.IntTextInjective | basescript/stats.py:186-188 | different integers have different texts, so a counter or timestamp can be read back from its line |
| Text.BelowTotal | basescript/stats.py:185 | any two strings are ordered one way or the other by Python's string comparison |
| Text.BelowTransitive | basescript/stats.py:185 | Python's string order is transitive |
| Text.SortBag | basescript/stats.py:185 | `sort()` of a list of strings gives an ascending list with exactly the same elements and multiplicities |
| Text.SortedUnique | basescript/stats.py:185 | two ascending lists with the same elements are equal, so the sorted field list does not depend on the order it was built in |
| Text.Strip | basescript/stats.py:95 | `strip()` returns the slice left after the leading and trailing whitespace; the removed ends are whitespace and the result neither starts nor ends with whitespace; a string that starts and ends with non-whitespace comes back unchanged |
| Timestamps.UnitNanos | basescript/stats.py:33-49 | each known precision stands for a positive number of nanoseconds |
| Timestamps.ConvertTimestamp | basescript/stats.py:12-51 | the conversion succeeds exactly for `ms`, `n`, `u`, `s`, `m` and `h` and raises `ValueError` otherwise; the result is the number of whole units in the time since the epoch, truncated toward zero |
| Timestamps.MillisTimestamp | basescript/stats.py:365 | the timestamp a dump writes is the successful `ms` conversion of `now` |
| Timestamps.ConversionExamples | tests/test_stats.py:9-23 | 2017-01-20 08:09:10.312125 converts to 1484899750312 in `ms` and to 1484899750312125 in `u`; the unknown precision `ns` is an error |
| SeriesKeys.TagPairsMembers | basescript/stats.py:90 | the `k=v` list holds the text of every tag whose value is not `None`, and nothing else |
| SeriesKeys.TagPairsAppend | basescript/stats.py:90 | the `k=v` list of two runs of tags is the list of the first followed by that of the second |
| SeriesKeys.TagPairsPermutation | basescript/stats.py:90 | tags given in another order produce the same `k=v` texts with the same multiplicities |
| SeriesKeys.MakeSeriesKey | basescript/stats.py:87-88 | with no tags the key is the measurement itself |
| SeriesKeys.KeyListsNonNoneTags | basescript/stats.py:87-95 | with tags, the key is the stripped `measurement,` followed by the sorted, comma-joined texts of exactly the tags that are not `None` |
| SeriesKeys.KeyIgnoresTagOrder | basescript/stats.py:90-95 | the key does not depend on the order the tags are given in |
| SeriesKeys.TagPairsAllNone | basescript/stats.py:90 | tags that are all `None` contribute no text |
| SeriesKeys.AllNoneTagsKeepComma | basescript/stats.py:87-95 | when tags are given but all are `None`, the key is the measurement followed by a bare comma |
| SeriesKeys.KeyExampleOneTag | tests/test_stats.py:74-77 | `make_series_key("my_measurement", mytag="myval")` is `my_measurement,mytag=myval` |
| SeriesKeys.KeyExampleIntegerTag | tests/test_stats.py:79-82 | an integer tag is written in decimal: `my_measurement,mytag=12` |
| SeriesKeys.KeyExampleTwoTags | basescript/stats.py:90-95 | tags `b="2", a="1"` give `m,a=1,b=2`: sorted, whatever the argument order |
| SeriesKeys.KeyExampleNoneAndEmpty | basescript/stats.py:90-95 | a `None` tag is dropped and an empty-string tag is kept: `m,b=` |
| SeriesKeys.KeyExampleAllNone | basescript/stats.py:87-95 | a single `None` tag leaves `m,` |
| Timers.SortInts | basescript/stats.py:210 | `sorted(values)` is ascending and a permutation of the samples |
| Timers.AscendingUnique | basescript/stats.py:210 | an ascending permutation of the samples is unique |
| Timers.ThresholdIndex | basescript/stats.py:237 | `threshold_index` is the nearest integer to a tenth of the count, with ties going up |
| Timers.ThresholdCount | basescript/stats.py:237-239 | for one or more samples `num_in_threshold` is between 1 and the count, so `values[num_in_threshold - 1]` is in bounds |
| Timers.TimerAggregates | basescript/stats.py:207-246 | no samples give no statistics; the 90th-percentile entries are present exactly when there are at least two samples |
| Timers.Summarize | basescript/stats.py:210-246 | the summary of sorted samples has the `_90` entries exactly when there are at least two samples |
| Timers.Ninety | basescript/stats.py:237-244 | `upper_90` is one of the samples |
| Timers.SummaryFromSums | basescript/stats.py:215-244 | `sum` and `sum_90` are the running sums at `count - 1` and `num_in_threshold - 1`, and the other statistics are read off the sorted samples as the source reads them |
| Timers.SummaryFields | basescript/stats.py:222-244 | the statistics dictionary has no keys, the five basic keys, or those and the three `_90` keys, matching the cases above |
| Timers.AggregateOne | basescript/stats.py:230-231 | one sample is its own sum, mean, lower and upper, with count 1 and no percentile entries |
| Timers.AggregateStatistics | basescript/stats.py:210-228 | `count` is the number of samples; `lower` and `upper` are samples below and above every sample; `sum` is their total; `mean` is the total over the count |
| Timers.PercentileStatistics | basescript/stats.py:237-244 | `sum_90`, `mean_90` and `upper_90` are the total, mean and largest of the `num_in_threshold` smallest samples, and `upper_90` lies between `lower` and `upper` |
| Timers.PercentileIsSmallest | basescript/stats.py:237-240 | the percentile samples are taken from the samples, and each of them is at most every sample left out |
| Timers.Extremes | basescript/stats.py:210-213 | the first and last of the sorted samples are samples, and every sample lies between them |
| Timers.AggregateTimerValues | basescript/stats.py:190-246 | the method with the running-sum loop computes exactly the statistics described above |
| Timers.AggregateIgnoresOrder | basescript/stats.py:210 | the statistics depend only on the multiset of samples, not their arrival order |
| Timers.AggregateExample | tests/test_stats.py:44-67 | the eight fixture samples, in any order, give sum 4466, mean 558.25, lower 120, upper 994, count 8, sum_90 3472, mean_90 496.0 and upper_90 844 |
| LineProtocol.EntriesBagRemove | basescript/stats.py:171-173 | the texts of a dictionary's entries do not depend on which entry is visited first |
| LineProtocol.EntriesBagMembers | basescript/stats.py:171-173 | every entry of a dictionary has its `prefix k=v` text among the field texts, and nothing else is there |
| LineProtocol.TimersBagRemove | basescript/stats.py:175-177 | the `t_<timer>_<stat>` texts do not depend on which timer is visited first |
| LineProtocol.TimersBagMembers | basescript/stats.py:175-177 | every statistic of every timer has its `t_<timer>_<stat>=<value>` text among the timer texts, and every timer text is one of these |
| LineProtocol.Line | basescript/stats.py:185-188 | a line starts with the series key and a space and ends with a space and the timestamp's decimal text |
| LineProtocol.CounterValues | basescript/stats.py:172 | counters are rendered from the same keys with their integer values |
| SeriesData.AddCounts | basescript/stats.py:121-123 | after `count`, the counters are the old ones together with the new names |
| SeriesData.AppendSamples | basescript/stats.py:153-156 | after `time`, the timers are the old ones together with the new names |
| SeriesData.Stamp | basescript/stats.py:187 | a given non-zero timestamp is used as it is; a missing or zero one is replaced by the conversion of `now` at the given precision |
| SeriesData.Series.constructor | basescript/stats.py:61-70 | a new series has its key, the creation time as last access, no data and is not modified |
| SeriesData.Series.Reset | basescript/stats.py:72-77 | `_reset` clears the modified flag and all four dictionaries and keeps the last access time |
| SeriesData.Series.Fields | basescript/stats.py:97-111 | `fields` returns the series itself, marks it modified, stamps the access time and overwrites the plain fields with the arguments, last write winning |
| SeriesData.Series.Count | basescript/stats.py:113-125 | `count` returns the series itself, marks it modified, stamps the access time and adds each argument to its counter, starting from 0 |
| SeriesData.Series.Gauge | basescript/stats.py:127-139 | `gauge` returns the series itself, marks it modified, stamps the access time and sets each gauge to its argument |
| SeriesData.Series.Time | basescript/stats.py:141-158 | `time` returns the series itself, marks it modified, stamps the access time and appends each argument to its timer's samples |
| SeriesData.Series.ToLineProtocol | basescript/stats.py:160-188 | the line is the key, the sorted comma-joined field texts of the fields, counters, gauges and timer statistics, and the timestamp; an unknown precision with no timestamp given is an error |
| SeriesData.Overwrite | basescript/stats.py:108-109 | the loop over the arguments leaves the old dictionary updated with every argument |
| SeriesData.Accumulate | basescript/stats.py:121-123 | the loop over the arguments leaves exactly the counters that `count` promises |
| SeriesData.Append | basescript/stats.py:153-156 | the `setdefault(...).append` loop leaves exactly the timers that `time` promises |
| SeriesData.AppendEntries | basescript/stats.py:171-173 | the `extend` over a dictionary adds exactly that dictionary's field texts |
| SeriesData.AppendTimers | basescript/stats.py:175-177 | the loop over the timers adds exactly the statistic texts of every timer |
| SeriesData.Series.Equals | basescript/stats.py:251-255 | `__eq__` is false for every operand that is not a series |
| SeriesData.Series.NotEqualsAsWritten | basescript/stats.py:257-258 | as written, `__neq__` is true for every operand |
| SeriesData.EqualsIsEquivalence | basescript/stats.py:251-255 | `__eq__` between series is reflexive, symmetric and transitive, and holds only for equal keys, which is what `__hash__` hashes |
| SeriesData.Series.NotEqualsAsWrittenHoldsForItself | basescript/stats.py:257-258 | as written, `__neq__` reports a series unequal to itself although `__eq__` reports it equal |
| SeriesData.Series.NotEqualsComplementsEquals | basescript/stats.py:251-258 | the corrected `__neq__` is false exactly for a series with the same key, and true for every operand that is not a series |
| SeriesData.CountsAccumulate | basescript/stats.py:113-125 | two `count` calls in either order leave the same counters: each is the sum of all its increments |
| SeriesData.CountExample | tests/test_stats.py:99-117 | counting `tests=5, exams=2`, then `tests=2`, then `tests=-5` gives `{tests: 5, exams: 2}`, `{tests: 7, exams: 2}`, `{tests: 2, exams: 2}` |
| SeriesData.TwoTimeCalls | basescript/stats.py:153-156 | after two `time` calls a timer's samples are the old ones, then the first call's, then the second's |
| SeriesData.TimeCallsCommute | basescript/stats.py:141-158 | two `time` calls in either order leave the same timers, the same samples per timer and the same statistics |
| SeriesData.TimeExample | tests/test_stats.py:146-160 | timing `user_time=100` and then `user_time=300` gives `{user_time: [100]}` and then `{user_time: [100, 300]}` |
| SeriesData.LineListsEverything | basescript/stats.py:170-186 | every plain field, every `c_` counter, every `g_` gauge and, for every timer, every one of its statistics has its `t_<timer>_<stat>=<value>` text on the line |
| SeriesData.LineListsNothingElse | basescript/stats.py:170-186 | every text on the line is the text of a plain field, a `c_` counter, a `g_` gauge or the `t_<timer>_<stat>` text of some timer's statistic |
| StatsRegistry.GlobalTags | basescript/stats.py:322-324 | the global tags are a part of the constructor's keyword arguments with their values unchanged |
| StatsRegistry.GlobalTagsAreNonEmptyStrings | basescript/stats.py:322-324 | a keyword argument becomes a global tag exactly when its value is a non-empty string |
| StatsRegistry.TagList | basescript/stats.py:330-332 | the keyword arguments passed on to `make_series_key` are exactly the entries of the merged tag dictionary |
| StatsRegistry.Stats.constructor | basescript/stats.py:313-324 | a new registry has no series and keeps the non-empty string tags |
| StatsRegistry.Stats.Measure | basescript/stats.py:326-348 | `measure` returns the series stored under the key of the measurement and the merged tags; an existing series is returned and the map is unchanged; otherwise a new empty series is stored under that key and returned |
| StatsRegistry.MeasureKeyLists | basescript/stats.py:330-332 | the key lists the texts of exactly the non-`None` merged tags, sorted |
| StatsRegistry.GlobalTagsInKey | basescript/stats.py:327-332 | a global tag always appears in the key with its own value, overriding a per-call tag of the same name |
| StatsRegistry.MeasureKeyIgnoresOrder | basescript/stats.py:330-332 | however the merged tags are ordered, `make_series_key` gives the same key |
| StatsRegistry.Stats.DumpStats | basescript/stats.py:350-388 | `dump_stats` writes one line per modified series, clears those series, deletes the dormant unmodified ones and changes no series identity; every series object it held before, kept or deleted, is left flushed |
| StatsRegistry.FlushAll | basescript/stats.py:367-380 | the loop leaves every modified series cleared, writes exactly their lines and collects exactly the dormant unmodified keys |
| StatsRegistry.Visit | basescript/stats.py:369-380 | one turn of the loop writes and clears a modified series, or marks an unmodified one for deletion when it has been idle for a minute or more |
| StatsRegistry.Dumped | basescript/stats.py:367-384 | a dump only removes series: every series after it was there before |
| StatsRegistry.DumpedProperties | basescript/stats.py:367-384 | after a dump no series is modified and access times are kept; a modified series stays, emptied; an unmodified one stays unchanged exactly when it was accessed less than a minute ago |
| StatsRegistry.LinesCount | basescript/stats.py:367-376 | a dump writes as many lines as there were modified series |
| StatsRegistry.SecondDumpWritesNothing | basescript/stats.py:369-376 | a dump right after another, with no updates in between, writes no lines |
| MetricsGrouping.Cleaned | basescript/log.py:320-326 | grouping ignores `timestamp`, `type`, `id` and every key starting with `_`, and keeps the other entries unchanged |
| MetricsGrouping.Classify | basescript/log.py:308-334 | an event that is handed on keeps every entry except the `__grouped__` mark, and only `type` may change; a grouped event's field values are given for exactly the field names, and no key pair is also a field name |
| MetricsGrouping.Routing | basescript/log.py:309-318 | a `logged_metric` is retyped to `metric` and handed on; an event of another type is handed on untouched; a metric marked `__grouped__` is handed on without the mark; exactly the other metric events are grouped |
| MetricsGrouping.PartitionSplits | basescript/log.py:320-334 | a grouped event's kept entries are split: non-numbers form the key with their values, and numbers and booleans give the field names and values |
| MetricsGrouping.Partition | basescript/log.py:328-334 | the partition loop builds exactly that group key and those field values |
| MetricsGrouping.KeysAgree | basescript/log.py:331-334 | two cleaned events have the same group key exactly when they agree on their non-numeric entries and have the same numeric field names |
| MetricsGrouping.SameGroup | basescript/log.py:320-334 | two grouped events land in the same group exactly when, ignoring volatile keys, they agree on their non-numeric entries and have the same numeric field names |
| MetricsGrouping.VolatileKeysIgnored | basescript/log.py:320-326 | grouped events that differ only in `timestamp`, `type`, `id` or `_`-prefixed keys are grouped alike |
| MetricsGrouping.Moved | basescript/log.py:343 | the first value is its own average, and a moving-average step lands between the old average and the new value |
| MetricsGrouping.Averaged | basescript/log.py:341-344 | after the moving-average loop the group has its old fields and the event's fields, and the fields the event lacks keep their averages |
| MetricsGrouping.UpdateAverages | basescript/log.py:341-344 | the moving-average loop updates exactly the event's fields and keeps the others |
| MetricsGrouping.MeanStep | basescript/log.py:343 | one moving-average step turns the mean of `n` values into the mean of `n + 1` values |
| MetricsGrouping.AverageStep | basescript/log.py:337-346 | after one more event, a group's field holds the running total over the event count |
| MetricsGrouping.GroupAverages | basescript/log.py:337-348 | after a run of events with the same fields, a group's `num` is the number of events and each field is the arithmetic mean of its values |
| MetricsGrouping.MetricsState.Process | basescript/log.py:308-352 | an event that is handed on leaves `METRICS_STATE` unchanged; a grouped event is dropped and only its group absorbs it |
| MetricsGrouping.MetricsState.Drain | basescript/log.py:287-302 | the drain empties the state and emits one event per group, each group at most once; it reaches every group unless a group's event cannot be built |
| MetricsGrouping.Emit | basescript/log.py:293-302 | a re-emitted event has no `level` or `event` keyword, carries `type=metric`, `__grouped__=True` and `num` set to the group's count, and keeps every key pair that is not an averaged field |
| MetricsGrouping.EmitRestoresGroup | basescript/log.py:293-302 | an emitted event carries the group's key pairs and averages back, plus `type=metric`, `__grouped__=True` and `num` set to the group's count |
| MetricsGrouping.EmitSucceeds | basescript/log.py:295-302 | for a group built from events, the event can be re-emitted exactly when the group's entries (key pairs and averaged fields) hold `level` and `event` and none of them is named `num` |
| MetricsGrouping.EmittedEventPassesThrough | basescript/log.py:316-318 | an emitted event is not grouped again: it passes the grouping processor with its mark removed |
| MetricsGrouping.DrainCount | basescript/log.py:293-302 | a drain that reaches every group emits as many events as there were groups |
| LogProcessors.DefaultKeys | basescript/log.py:249-264 | an existing `id` and `type` are kept; a missing `id` becomes the generated one and a missing `type` becomes `log`; `host` is always the host name; other entries are unchanged |
| LogProcessors.WithoutDefaultKeys | basescript/log.py:267-272 | the minimal event is the event without `host`, `id` and `type`, other entries unchanged |
| LogProcessors.Minimal | basescript/log.py:267-272 | the loop over `host`, `id` and `type` removes exactly those keys |
| LogProcessors.MinimalUndoesDefaults | basescript/log.py:249-272 | the minimal processor after the default-keys processor leaves exactly what it would have left of the original event |
| LogProcessors.DefaultKeysIdempotent | basescript/log.py:253-262 | running the default-keys processor twice changes nothing more, whatever id the second run would generate |
| LogProcessors.MinimalIdempotent | basescript/log.py:267-272 | running the minimal processor twice changes nothing more |
| LogProcessors.UntypedEventsPassGrouping | basescript/log.py:308-314 | an event that had no `type` gets `type=log` and passes the grouping processor untouched |
| LogProcessors.GeneratedIdIgnored | basescript/log.py:320-323 | the id the default-keys processor generates does not influence the group a metric event lands in |
| Levels.LevelLogger.constructor | basescript/log.py:98-106 | the level is the given one, or `WARNING` (30) when none or 0 is given |
| Levels.LevelLogger.SetLevel | basescript/log.py:108-110 | `setLevel` sets the level |
| Levels.LevelLogger.EnabledAbove | basescript/log.py:112-113 | the logger's own level is enabled, every level above an enabled one is enabled and every level below the logger's is not |

## Left out

- Floating point: `float` values are exact reals. Their `%s` text is a parameter, `realText`. The moving averages and the means are computed exactly, without float rounding.
- Timers.ThresholdIndex: computes a tenth of the count exactly, where Python 2 computes `round(0.1 * count)` on the float product. This assumes the product never falls on the wrong side of a half.
- SeriesData.Stamp: when the given timestamp is 0, the model converts the same `now` again, where the source reads the clock a second time. The two differ only in a dump within the first millisecond after the epoch.
- Timestamps.ConvertTimestamp: takes the time since the epoch as integer nanoseconds. The float nanosecond count `total_seconds() * 1e9` and its rounding for large timestamps are not modelled.
- Clocks: `_now()` and `datetime.utcnow()` become the `now` parameter.
- Hosts and ids: `HOSTNAME` becomes the `host` parameter. The generated `<time>_<uuid1>` id becomes the `id` parameter.
- Threads and locks are not modelled: `ThreadSafeSeries`, the registry and grouping locks, `dump_stats_periodically`, the `keeprunning` restart around `dump_metrics`, its `_force_flush_q` wait and its termination flag.
- Counter increments and timer samples are integers, as in the tests. Float increments are not modelled.
- The structlog machinery is not modelled: the other processors of `define_log_processors`, `_configure_logger`'s assembly of the chain, and rendering.
- MetricsGrouping.MetricsState.Drain: does not model the `getattr(log, level)` dispatch. An emission records the level value instead of calling the logger method it names.
- Group keys are a map of key pairs and a set of field names, not the sorted tuples Python builds. Both identify the same groups.
- Aliasing: the Python helpers update dictionaries in place. The model's helpers return new maps, which is the same thing for callers that own the dictionary, as every caller here does.
- Levels.LevelLogger.constructor: the `isinstance(level, int)` assertions always hold here, because levels have type `int`.
- Text.Strip: removes the ASCII whitespace of Python 2's byte strings only, not Unicode whitespace.
- Python 2 never calls `__neq__` for `!=` (it calls `__ne__`). The method is modelled as the method it is.
- `__str__`, `__repr__` and `Stats.DUMP_INTERVAL` are not modelled. They take no part in the computed statistics.

## Findings

| source | as written | input that shows it | evidently intended | confidence | as-written member | corrected member |
|---|---|---|---|---|---|---|
| basescript/stats.py:257-258 | `__neq__` returns `not self == 0`, comparing the series with the integer 0 | any series compared with itself: `__eq__` says equal, `__neq__` says not equal | `not self == o`, the complement of `__eq__` | high, not executed | SeriesData.Series.NotEqualsAsWrittenHoldsForItself | SeriesData.Series.NotEqualsComplementsEquals |
