# hass-aggregator, modelled in Dafny

hass-aggregator is a Home Assistant component that follows configured source
entities and derives one value per aggregator from their state changes and the
clock. This project models its aggregation core in two revisions:

- `hass_aggregator.py`: an `AggregatedEntity` collects the states of its source
  entity in a bucket. An `AttributeChangeBucket` closes once it holds `size`
  values; a `TimeChangeBucket` closes when the clock's minute moves into another
  `size`-minute slot (`int(minute / size)`), the first slot seen being only a
  baseline. When the bucket closes, `_process` flushes it, records
  `no_of_values`, writes the `max`, `min` and `avg` attributes of the configured
  methods, and displays the last collected value, or, when nothing was
  collected, the source entity's current state. The gate `ActiveBase` is always
  active.
- `hass-aggregator.py`: an older entity whose `skip` aggregator passes every
  (range+1)-th state of its source entity through and swallows the rest; a
  truthy result becomes the displayed state.

Modules: `Optional` (the Option type), `Reducers` (`aggr_max`, `aggr_min`,
`aggr_avg`), `Buckets` (the two bucket classes as one class `Bucket` tagged by
its `Trigger`, with pure functions `Updated`, `Checked` for `update_bucket` and
`is_new_bucket`), `Aggregation` (`ActiveBase`, the entity, and the pure step
function `Step` over a `Snapshot` of the entity that the entity's methods are
proved against), and `SkipAggregator` (the older revision).

In this code a count bucket closes at `len(values) >= size` and is emptied by
the flush; the `skip` aggregator passes the (range+1)-th value; there is no
active-hours window and no `max_every` or `min_every` method. The
configuration example in the module docstring names the method `average`; the
code acts on `avg` only, and the model follows the code.

## Model

| member | source | states |
|---|---|---|
| `Reducers.AggrMax` | hass_aggregator.py:203-204 | the result is an element of the non-empty list and no element exceeds it |
| `Reducers.AggrMin` | hass_aggregator.py:207-208 | the result is an element of the non-empty list and exceeds no element |
| `Reducers.AggrAvg` | hass_aggregator.py:211-212 | the mean times the number of readings gives their sum, and it lies between the minimum and the maximum of the readings |
| `Reducers.Quotient` | hass_aggregator.py:212 | sum divided by count: times the count it gives back the sum, and it lies between the bounds the sum was built from |
| `Reducers.SumBounds` | hass_aggregator.py:212 | n readings sum to at least n times their minimum and at most n times their maximum |
| `Buckets.ParseTrigger` | hass_aggregator.py:187-195 | a recognised trigger word maps to the bucket kind of that name; any other word selects no bucket |
| `Buckets.BucketAttributes` | hass_aggregator.py:127-129 | the attribute map of a bucket: exactly the keys trigger and size, the trigger word parsing back to the trigger, the size as a count |
| `Buckets.TriggerNameRoundTrip` | hass_aggregator.py:187-195 | parsing the word of a trigger gives that trigger back |
| `Buckets.Slot` | hass_aggregator.py:177 | the slot index s of a minute satisfies size*s <= minute < size*(s+1) |
| `Buckets.TimeCheckCases` | hass_aggregator.py:173-184 | no boundary and no change before a minute is known; the first slot is stored as baseline without a boundary; afterwards a boundary exactly when the slot differs, the new slot being stored |
| `Buckets.RepeatedCheckIsQuiet` | hass_aggregator.py:155-184 | a second check with no event in between reports no boundary and changes nothing (count bucket below its size, any time bucket) |
| `Buckets.BoundariesFollowSlots` | hass_aggregator.py:167-184 | over any minute sequence, including a wrap from 59 to 0, tick i>0 reports a boundary iff its slot differs from tick i-1's; the first only against an established slot; values untouched; last slot stored |
| `Buckets.SlotRuleExample` | test/test_aggr_max_every.py:15-24 | with a 10-minute cycle, minute 1 gives no boundary and slot 0, minute 5 none, minute 11 a boundary and slot 1 |
| `Buckets.Bucket.constructor` | hass_aggregator.py:117-121 | a new bucket holds no values, no slot and no minute |
| `Buckets.Bucket.StateAttributes` | hass_aggregator.py:127-129 | `BucketAttributes` of the bucket's own trigger and size: exactly the keys trigger and size, the trigger word parsing back to the bucket's trigger |
| `Buckets.Bucket.UpdateBucket` | hass_aggregator.py:151-171 | a state event appends exactly its value and keeps slot and minute; a time event keeps the values and sets the minute of a time bucket only; a state event without a new state changes nothing and reports failure |
| `Buckets.Bucket.IsNewBucket` | hass_aggregator.py:155-184 | agrees with `Checked`: a count bucket closes iff it holds size values or more, changing nothing; values and minute never change |
| `Buckets.Bucket.Flush` | hass_aggregator.py:141-142 | the values become empty; slot and minute are kept |
| `Aggregation.MethodAttributes` | hass_aggregator.py:256-262 | the method loop (`ApplyMethods`, one key per configured method in order) adds exactly the keys of the configured max/min/avg methods, each holding its reducer's value over the sample, and leaves every other key as it was |
| `Aggregation.ProcessedReportsLastValue` | hass_aggregator.py:248-263 | after a report the bucket is empty with slot and minute kept, the state is the last collected value, no_of_values is the number collected, each configured method attribute is its reducer's value |
| `Aggregation.ProcessedFallsBack` | hass_aggregator.py:252-255 | with nothing collected the looked-up value is displayed, no_of_values is 0, and max, min and avg equal that value |
| `Aggregation.ProcessedWithoutFallback` | hass_aggregator.py:249-255 | with nothing collected and nothing found only no_of_values changes, to 0 |
| `Aggregation.InitialConsistent` | hass_aggregator.py:216-228 | a new entity satisfies the between-events invariant |
| `Aggregation.StepKeepsConsistent` | hass_aggregator.py:230-246 | every event keeps the invariant: a count bucket of positive size holds fewer than size values; a time bucket's slot is its last minute's |
| `Aggregation.RunKeepsConsistent` | hass_aggregator.py:230-246 | any sequence of events keeps the invariant |
| `Aggregation.ForeignOrRemovedStateIgnored` | hass_aggregator.py:234-238 | a state event of another entity, or one without a new state, changes nothing |
| `Aggregation.StateEventNeverClosesTimeBucket` | hass_aggregator.py:234-246 | for a time bucket a state event of the source only appends its value and never triggers a report |
| `Aggregation.TickClosesTimeBucketOnNewSlot` | hass_aggregator.py:230-246 | for a time bucket a tick stores its minute and slot, and reports exactly when a previous minute exists whose slot differs |
| `Aggregation.TickLeavesCountBucketAlone` | hass_aggregator.py:230-246 | for a count bucket of positive size a tick changes nothing |
| `Aggregation.CountBucketCollects` | hass_aggregator.py:234-246 | before the size-th state, a count bucket holds exactly the states so far, in order, and nothing was reported |
| `Aggregation.CountBucketReportsAfterSize` | hass_aggregator.py:234-263 | size states of the source into an empty count bucket: the last is displayed, no_of_values is size, each method attribute reduces all of them, the bucket is empty again |
| `Aggregation.MissingMethodsDiscardReadings` | hass_aggregator.py:221-263 | as written, with no methods configured, any non-empty closed bucket is flushed and counted while the displayed state stays what it was, so it differs from the corrected reading unless it already showed the last value |
| `Aggregation.MissingMethodsStillReport` | hass_aggregator.py:248-263 | with the missing setting read as no methods, the closed bucket's last value is displayed and only no_of_values is added |
| `Aggregation.ActiveBase.constructor` | hass_aggregator.py:87-104 | the gate is active and reports no change |
| `Aggregation.AggregatedEntity.constructor` | hass_aggregator.py:216-228 | state unknown, empty bucket of the configured trigger and size, attributes equal to the bucket's trigger and size |
| `Aggregation.AggregatedEntity.AggregateTime` | hass_aggregator.py:230-232 | every tick is fed to the bucket, then aggregated, as `Step` says |
| `Aggregation.AggregatedEntity.AggregateState` | hass_aggregator.py:234-238 | a state event of another entity changes nothing; one of the source entity follows `Step` |
| `Aggregation.AggregatedEntity.Aggregate` | hass_aggregator.py:240-246 | with the always-active gate, `_process` runs exactly when the bucket's check reports a boundary, as the step function `Aggregated` says |
| `Aggregation.AggregatedEntity.Process` | hass_aggregator.py:248-263 | the new state, attributes and bucket are those of `Processed` on the old ones; the loop keeps the attributes equal to `ApplyMethods` over the methods seen so far |
| `SkipAggregator.CounterStaysInRange` | hass-aggregator.py:76-82 | from a counter in [0, range] the counter stays in [0, range] over any number of calls of `SkipStep` |
| `SkipAggregator.OutputAt` | hass-aggregator.py:76-82 | call i passes its input through unchanged iff the counter it meets equals range, and returns None otherwise |
| `SkipAggregator.CounterCycles` | hass-aggregator.py:76-82 | from a counter c in [0, range] the counter met by call i is (c + i) mod (range + 1) |
| `SkipAggregator.EmitsEveryRangePlusOne` | hass-aggregator.py:73-82 | from the initial counter 0, input i is passed through iff i mod (range+1) == range |
| `SkipAggregator.EmitsOncePerCycle` | hass-aggregator.py:76-82 | from counter c, range-c inputs are swallowed, the next is passed through, and the counter is back at 0 |
| `SkipAggregator.NegativeRangeNeverEmits` | hass-aggregator.py:76-82 | a negative range never matches the counter, so nothing is passed through |
| `SkipAggregator.SkipExample` | hass-aggregator.py:76-82 | with range 2, inputs a, b, c, d give None, None, c, None |
| `SkipAggregator.CycleDisplaysLastInput` | hass-aggregator.py:104-108 | a full cycle from counter 0 displays (`Displayed`) its last input when that is truthy (`Truthy`, here not empty) |
| `SkipAggregator.AggrSkip.constructor` | hass-aggregator.py:71-74 | the counter starts at 0 with the configured range |
| `SkipAggregator.AggrSkip.Aggregate` | hass-aggregator.py:76-82 | at the range the input is returned unchanged and the counter reset to 0; otherwise None and the counter goes up by one, as `SkipStep` says |
| `SkipAggregator.GetAggregator` | hass-aggregator.py:85-88 | a fresh skip aggregator with counter 0 iff the method is skip, otherwise none |
| `SkipAggregator.AggregatedEntity.constructor` | hass-aggregator.py:92-102 | state unknown, a fresh skip aggregator with counter 0 |
| `SkipAggregator.AggregatedEntity.Aggregate` | hass-aggregator.py:104-108 | a state of another entity changes nothing; one of the source entity advances the counter as `SkipStep` says, and the state becomes the result when that is `Truthy` and stays otherwise (`Displayed`) |

## Findings

| source | as written | input that shows it | evidently intended | confidence | as-written member | corrected member |
|---|---|---|---|---|---|---|
| hass_aggregator.py:221 | `_methods` is `aggregator.get('methods')`, None when the setting is absent, and `_process` iterates over it (line 256), raising TypeError after the flush and the count, before the state is set | the docstring's first aggregator (state trigger, size 10, no methods) fed ten states of its source | a closed bucket is displayed whether or not methods are configured | high; not executed | `Aggregation.MissingMethodsDiscardReadings` | `Aggregation.MissingMethodsStillReport` |

The entity's constructor reads a missing `methods` setting as no methods
(`Aggregation.MethodNames`); the as-written behaviour is kept in
`Aggregation.ProcessedAsWritten`.

## Left out

- Host wiring of both files (`async_setup`, event-bus listeners, `EntityComponent`), entity-id generation, the `state` and `state_attributes` properties and logging: framework glue with nothing to prove.
- `hass.states.get` is not called: its result for the source entity is a parameter (`current`); None stands for no state found, where the source raises on `.state`.
- Exceptions are modelled by their effect: everything done before the raise stays, nothing after it happens (a state event without a new state, a lookup that found nothing). The entity reads a missing `methods` setting as no methods; the raise on it is modelled only in `Aggregation.ProcessedAsWritten` (see Findings).
- Readings of the newer revision are integers; the source compares Home Assistant state strings, whose ordering is not modelled. With string states `sum(values)` in `aggr_avg` (hass_aggregator.py:212) raises TypeError, so a configured `avg` stops `_process` at line 258, after the flush and the count but before the state is set at line 263; the integer model does not capture that raise and computes the mean.
- `Reducers.AggrAvg`: exact rational division, not floating point.
- `SkipAggregator.AggregatedEntity.constructor`: requires the `skip` method; for any other method, the docstring's `average` and `cap` examples among them, `get_aggregator` returns None and the source raises AttributeError on `self.aggregator.name` while building the entity (hass-aggregator.py:94-98), so no such entity exists to model.
- `Buckets.Bucket.constructor`: requires a positive size for a time bucket; a size of 0 raises ZeroDivisionError in the source and a negative size is not modelled.
- `Buckets.Slot`: minutes are natural numbers, not restricted to 0-59; `int(minute / size)` equals integer division there, floating-point rounding of the quotient is not modelled.
- `TimeActive` is unfinished (computes an unused local) and `get_active_parser` never builds it; the `active` setting is ignored as in the source.
- An undefined bucket trigger makes `get_bucket` return nothing and the entity's construction fail; the entity constructor takes a parsed `Trigger`.
- A `size` or `range` of None is not modelled; a `range` of None never equals the counter and behaves like `SkipAggregator.NegativeRangeNeverEmits`.
- The `max_every`/`min_every` aggregator exercised by test/test_aggr_max_every.py does not exist in this code; only its slot rule is used.
- The sub-class hierarchy (`BucketBase` and its subclasses, `BaseAggrFunction`) is flattened into one tagged class, since the model has no inheritance.
