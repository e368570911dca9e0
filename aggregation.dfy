/** The `AggregatedEntity` of hass_aggregator.py: routes state events for its
    source entity and every clock tick into its bucket, and when the bucket
    closes, flushes it, counts what was collected, computes the configured
    method attributes and displays the last collected value. `ActiveBase`, the
    only gate the source builds, is always active. */
module Aggregation {
  import opened Optional
  import opened Reducers
  import opened Buckets

  /** The displayed state: `STATE_UNKNOWN` until the first report. */
  datatype Display = Unknown | Reading(value: int)

  const NoOfValues := "no_of_values"
  const MethodAvg := "avg"
  const MethodMax := "max"
  const MethodMin := "min"

  /** The method names `_process` acts on; any other configured name is skipped. */
  predicate IsMethodKey(name: string) {
    name == MethodAvg || name == MethodMax || name == MethodMin
  }

  /** The attribute a method writes for a sample. */
  function MethodValue(name: string, sample: seq<int>): Attr
    requires |sample| > 0 && IsMethodKey(name)
  {
    if name == MethodAvg then Mean(AggrAvg(sample))
    else if name == MethodMax then Number(AggrMax(sample))
    else Number(AggrMin(sample))
  }

  /** The attributes after the loop over the configured methods. */
  function ApplyMethods(methods: seq<string>, sample: seq<int>, attrs: map<string, Attr>): map<string, Attr>
    requires |sample| > 0
    decreases |methods|
  {
    if methods == [] then attrs
    else
      var before := ApplyMethods(methods[..|methods| - 1], sample, attrs);
      var name := methods[|methods| - 1];
      if IsMethodKey(name) then before[name := MethodValue(name, sample)] else before
  }

  /** The loop adds exactly the attributes of the known configured methods,
      each holding its reducer's value, and leaves every other key alone. */
  lemma {:induction false} MethodAttributes(methods: seq<string>, sample: seq<int>, attrs: map<string, Attr>)
    requires |sample| > 0
    ensures forall k :: k in ApplyMethods(methods, sample, attrs) <==> k in attrs || (IsMethodKey(k) && k in methods)
    ensures forall k :: k in ApplyMethods(methods, sample, attrs) ==>
      ApplyMethods(methods, sample, attrs)[k] == if IsMethodKey(k) && k in methods then MethodValue(k, sample) else attrs[k]
    decreases |methods|
  {
    if methods != [] {
      var init := methods[..|methods| - 1];
      MethodAttributes(init, sample, attrs);
      assert methods == init + [methods[|methods| - 1]];
      assert forall k :: k in methods <==> k in init || k == methods[|methods| - 1];
    }
  }

  /** One configured aggregator: the entity it follows, its bucket and its methods. */
  datatype Config = Config(id: string, trigger: Trigger, size: int, methods: seq<string>)

  predicate ConfigValid(cfg: Config) {
    cfg.trigger == OnTime ==> cfg.size >= 1
  }

  /** The entity's mutable state: its bucket, the displayed state and the attributes. */
  datatype Snapshot = Snapshot(bucket: BucketState, state: Display, attributes: map<string, Attr>)

  /** The state of a freshly built entity. */
  function Initial(cfg: Config): Snapshot {
    Snapshot(Empty, Unknown, BucketAttributes(cfg.trigger, cfg.size))
  }

  /** `_process`, given the value `hass.states.get` finds for the source entity
      (None where it finds none and the source then raises on `.state`, after
      the flush and the count). */
  function Processed(methods: seq<string>, s: Snapshot, current: Option<int>): Snapshot {
    var collected := s.bucket.values;
    var flushed := s.bucket.(values := []);
    var counted := s.attributes[NoOfValues := Count(|collected|)];
    if collected == [] && current.None? then
      Snapshot(flushed, s.state, counted)
    else
      var sample := if collected == [] then [current.value] else collected;
      Snapshot(flushed, Reading(sample[|sample| - 1]), ApplyMethods(methods, sample, counted))
  }

  /** After a report the bucket is empty with its slot and minute kept, the
      state is the last collected value, `no_of_values` is how many were
      collected, and each known configured method holds its reducer's value. */
  lemma ProcessedReportsLastValue(methods: seq<string>, s: Snapshot, current: Option<int>)
    requires s.bucket.values != []
    ensures var r := Processed(methods, s, current);
      && r.bucket == s.bucket.(values := [])
      && r.state == Reading(s.bucket.values[|s.bucket.values| - 1])
      && NoOfValues in r.attributes && r.attributes[NoOfValues] == Count(|s.bucket.values|)
      && forall k :: IsMethodKey(k) && k in methods ==>
           k in r.attributes && r.attributes[k] == MethodValue(k, s.bucket.values)
  {
    MethodAttributes(methods, s.bucket.values, s.attributes[NoOfValues := Count(|s.bucket.values|)]);
  }

  /** With nothing collected, the looked-up value stands in as the only sample. */
  lemma ProcessedFallsBack(methods: seq<string>, s: Snapshot, v: int)
    requires s.bucket.values == []
    ensures var r := Processed(methods, s, Some(v));
      && r.bucket == s.bucket
      && r.state == Reading(v)
      && NoOfValues in r.attributes && r.attributes[NoOfValues] == Count(0)
      && (MethodMax in methods ==> MethodMax in r.attributes && r.attributes[MethodMax] == Number(v))
      && (MethodMin in methods ==> MethodMin in r.attributes && r.attributes[MethodMin] == Number(v))
      && (MethodAvg in methods ==> MethodAvg in r.attributes && r.attributes[MethodAvg] == Mean(v as real))
  {
    MethodAttributes(methods, [v], s.attributes[NoOfValues := Count(0)]);
    assert Sum([v]) == v;
  }

  /** With nothing collected and nothing found, only `no_of_values` changes. */
  lemma ProcessedWithoutFallback(methods: seq<string>, s: Snapshot)
    requires s.bucket.values == []
    ensures Processed(methods, s, None) == s.(attributes := s.attributes[NoOfValues := Count(0)])
  {
  }

  /** `_aggregate` with the always-active gate: process exactly when the bucket has closed. */
  function Aggregated(cfg: Config, s: Snapshot, current: Option<int>): Snapshot
    requires ConfigValid(cfg)
  {
    var (isNew, b) := Checked(cfg.trigger, cfg.size, s.bucket);
    if isNew then Processed(cfg.methods, s.(bucket := b), current) else s.(bucket := b)
  }

  /** `aggregate_state` and `aggregate_time` for one event. */
  function Step(cfg: Config, s: Snapshot, e: Event, current: Option<int>): Snapshot
    requires ConfigValid(cfg)
  {
    match e
    case TimeChanged(_) =>
      Aggregated(cfg, s.(bucket := Updated(cfg.trigger, s.bucket, e).value), current)
    case StateChanged(entityId, _) =>
      if entityId != cfg.id then s
      else match Updated(cfg.trigger, s.bucket, e)
        case None => s
        case Some(b) => Aggregated(cfg, s.(bucket := b), current)
  }

  /** An event together with what a lookup of the source entity would find then. */
  datatype Input = Input(event: Event, current: Option<int>)

  /** The entity after a sequence of inputs, handled in order. */
  function Run(cfg: Config, s: Snapshot, inputs: seq<Input>): Snapshot
    requires ConfigValid(cfg)
    decreases |inputs|
  {
    if inputs == [] then s
    else
      var last := inputs[|inputs| - 1];
      Step(cfg, Run(cfg, s, inputs[..|inputs| - 1]), last.event, last.current)
  }

  /** What holds between events: a count bucket holds fewer than `size` values
      (none when `size` is not positive); a time bucket has a slot exactly when
      it has a minute, and the slot is that minute's. */
  ghost predicate Consistent(cfg: Config, s: Snapshot) {
    ConfigValid(cfg) &&
    match cfg.trigger
    case OnState =>
      s.bucket.currentBucket.None? && s.bucket.currentMinute.None? &&
      (|s.bucket.values| < cfg.size || s.bucket.values == [])
    case OnTime =>
      (s.bucket.currentMinute.None? <==> s.bucket.currentBucket.None?) &&
      (s.bucket.currentMinute.Some? ==>
        s.bucket.currentBucket == Some(Slot(s.bucket.currentMinute.value, cfg.size)))
  }

  lemma InitialConsistent(cfg: Config)
    requires ConfigValid(cfg)
    ensures Consistent(cfg, Initial(cfg))
  {
  }

  lemma StepKeepsConsistent(cfg: Config, s: Snapshot, e: Event, current: Option<int>)
    requires Consistent(cfg, s)
    ensures Consistent(cfg, Step(cfg, s, e, current))
  {
  }

  /** Every sequence of events keeps the entity consistent. */
  lemma {:induction false} RunKeepsConsistent(cfg: Config, s: Snapshot, inputs: seq<Input>)
    requires Consistent(cfg, s)
    ensures Consistent(cfg, Run(cfg, s, inputs))
    decreases |inputs|
  {
    if inputs != [] {
      var last := inputs[|inputs| - 1];
      RunKeepsConsistent(cfg, s, inputs[..|inputs| - 1]);
      StepKeepsConsistent(cfg, Run(cfg, s, inputs[..|inputs| - 1]), last.event, last.current);
    }
  }

  /** A state event of another entity, or one without a new state, changes nothing. */
  lemma ForeignOrRemovedStateIgnored(cfg: Config, s: Snapshot, entityId: string, newState: Option<int>, current: Option<int>)
    requires ConfigValid(cfg)
    requires entityId != cfg.id || newState.None?
    ensures Step(cfg, s, StateChanged(entityId, newState), current) == s
  {
  }

  /** For a time bucket a state event only collects its value: it never closes the bucket. */
  lemma StateEventNeverClosesTimeBucket(cfg: Config, s: Snapshot, v: int, current: Option<int>)
    requires Consistent(cfg, s) && cfg.trigger == OnTime
    ensures Step(cfg, s, StateChanged(cfg.id, Some(v)), current) ==
      s.(bucket := s.bucket.(values := s.bucket.values + [v]))
  {
  }

  /** For a time bucket the first tick only sets the baseline slot; a later tick
      reports exactly when its slot differs from the previous tick's. */
  lemma TickClosesTimeBucketOnNewSlot(cfg: Config, s: Snapshot, minute: nat, current: Option<int>)
    requires Consistent(cfg, s) && cfg.trigger == OnTime
    ensures var moved := s.(bucket := s.bucket.(currentMinute := Some(minute), currentBucket := Some(Slot(minute, cfg.size))));
      Step(cfg, s, TimeChanged(minute), current) ==
        if s.bucket.currentMinute.Some? && Slot(s.bucket.currentMinute.value, cfg.size) != Slot(minute, cfg.size)
        then Processed(cfg.methods, moved, current)
        else moved
  {
  }

  /** For a count bucket of positive size a tick changes nothing. */
  lemma TickLeavesCountBucketAlone(cfg: Config, s: Snapshot, minute: nat, current: Option<int>)
    requires Consistent(cfg, s) && cfg.trigger == OnState && cfg.size >= 1
    ensures Step(cfg, s, TimeChanged(minute), current) == s
  {
  }

  /** Fed `size` states of its source entity from an empty count bucket, the
      entity stays silent until the last one and then displays it, with
      `no_of_values` equal to `size` and the method attributes of all of them. */
  lemma {:induction false} CountBucketReportsAfterSize(cfg: Config, s: Snapshot, inputs: seq<Input>, readings: seq<int>)
    requires cfg.trigger == OnState && cfg.size >= 1
    requires s.bucket == Empty
    requires |inputs| == |readings| == cfg.size
    requires forall i :: 0 <= i < |inputs| ==> inputs[i].event == StateChanged(cfg.id, Some(readings[i]))
    ensures var r := Run(cfg, s, inputs);
      && r.bucket == Empty
      && r.state == Reading(readings[|readings| - 1])
      && NoOfValues in r.attributes && r.attributes[NoOfValues] == Count(cfg.size)
      && forall k :: IsMethodKey(k) && k in cfg.methods ==>
           k in r.attributes && r.attributes[k] == MethodValue(k, readings)
  {
    var n := cfg.size;
    CountBucketCollects(cfg, s, inputs, readings, n - 1);
    var before := Run(cfg, s, inputs[..n - 1]);
    assert inputs[..n][..n - 1] == inputs[..n - 1];
    assert inputs[..n] == inputs;
    assert readings[..n - 1] + [readings[n - 1]] == readings;
    ProcessedReportsLastValue(cfg.methods, before.(bucket := Empty.(values := readings)), inputs[n - 1].current);
  }

  /** Before the `size`-th state, a count bucket has collected every state in order and reported nothing. */
  lemma {:induction false} CountBucketCollects(cfg: Config, s: Snapshot, inputs: seq<Input>, readings: seq<int>, k: nat)
    requires cfg.trigger == OnState && cfg.size >= 1
    requires s.bucket == Empty
    requires |inputs| == |readings| == cfg.size && k < cfg.size
    requires forall i :: 0 <= i < |inputs| ==> inputs[i].event == StateChanged(cfg.id, Some(readings[i]))
    ensures Run(cfg, s, inputs[..k]) == s.(bucket := Empty.(values := readings[..k]))
    decreases k
  {
    if k > 0 {
      CountBucketCollects(cfg, s, inputs, readings, k - 1);
      assert inputs[..k][..k - 1] == inputs[..k - 1];
      assert readings[..k - 1] + [readings[k - 1]] == readings[..k];
    }
  }

  /** `methods` as configured, or none: the source iterates over the missing
      setting itself and raises (see `ProcessedAsWritten`). */
  function MethodNames(configured: Option<seq<string>>): seq<string> {
    configured.GetOr([])
  }

  /** `_process` as written, with the configured `methods` setting, which may be
      missing: the loop over None raises after the flush and the count. */
  function ProcessedAsWritten(configured: Option<seq<string>>, s: Snapshot, current: Option<int>): Snapshot {
    match configured
    case None => s.(bucket := s.bucket.(values := []), attributes := s.attributes[NoOfValues := Count(|s.bucket.values|)])
    case Some(methods) => Processed(methods, s, current)
  }

  /** As written, an aggregator configured without methods flushes and counts
      every bucket it closes without changing the displayed state, so a fresh
      entity stays `STATE_UNKNOWN`; read as no methods, the last value is shown. */
  lemma MissingMethodsDiscardReadings(s: Snapshot, current: Option<int>)
    requires s.bucket.values != []
    ensures ProcessedAsWritten(None, s, current).state == s.state
    ensures ProcessedAsWritten(None, s, current).bucket.values == []
    ensures ProcessedAsWritten(None, s, current).attributes[NoOfValues] == Count(|s.bucket.values|)
    ensures s.state != Reading(s.bucket.values[|s.bucket.values| - 1]) ==>
      ProcessedAsWritten(None, s, current).state != Processed(MethodNames(None), s, current).state
  {
    MissingMethodsStillReport(s, current);
  }

  /** With the missing setting read as no methods, the closed bucket is reported. */
  lemma MissingMethodsStillReport(s: Snapshot, current: Option<int>)
    requires s.bucket.values != []
    ensures Processed(MethodNames(None), s, current).state == Reading(s.bucket.values[|s.bucket.values| - 1])
    ensures Processed(MethodNames(None), s, current).attributes == s.attributes[NoOfValues := Count(|s.bucket.values|)]
  {
  }

  /** `ActiveBase`: the gate `get_active_parser` always builds. It is active
      from construction on, never changes and never reports a change. */
  class ActiveBase {
    var active: bool

    constructor ()
      ensures IsActive() && !HasChanged()
    {
      active := true;
    }

    function IsActive(): bool
      reads this
    {
      active
    }

    /** `check_active`: does nothing. */
    method CheckActive(e: Event)
    {
    }

    function HasChanged(): bool {
      false
    }
  }

  class AggregatedEntity {
    const id: string
    const methods: seq<string>
    const gate: ActiveBase
    const bucket: Bucket
    var state: Display
    var attributes: map<string, Attr>

    ghost predicate Valid()
      reads this, bucket, gate
    {
      bucket.Valid() && gate.IsActive()
    }

    function Cfg(): Config
      reads this, bucket
    {
      Config(id, bucket.trigger, bucket.size, methods)
    }

    function Snap(): Snapshot
      reads this, bucket
    {
      Snapshot(bucket.State(), state, attributes)
    }

    constructor (id: string, trigger: Trigger, size: int, configured: Option<seq<string>>)
      requires trigger == OnTime ==> size >= 1
      ensures Valid() && fresh(bucket) && fresh(gate)
      ensures Cfg() == Config(id, trigger, size, MethodNames(configured))
      ensures Snap() == Initial(Cfg())
    {
      state := Unknown;
      gate := new ActiveBase();
      bucket := new Bucket(trigger, size);
      methods := MethodNames(configured);
      this.id := id;
      attributes := BucketAttributes(trigger, size);
      new;
      assert attributes == bucket.StateAttributes();
    }

    /** `aggregate_time`: every tick reaches the bucket. */
    method AggregateTime(e: Event, current: Option<int>)
      requires Valid() && e.TimeChanged?
      modifies this, bucket
      ensures Valid() && Cfg() == old(Cfg())
      ensures Snap() == Step(Cfg(), old(Snap()), e, current)
    {
      var _ := bucket.UpdateBucket(e);
      Aggregate(e, current);
    }

    /** `aggregate_state`: only state events of the source entity reach the
        bucket; one without a new state raises in the bucket and goes no further. */
    method AggregateState(e: Event, current: Option<int>)
      requires Valid() && e.StateChanged?
      modifies this, bucket
      ensures Valid() && Cfg() == old(Cfg())
      ensures Snap() == Step(Cfg(), old(Snap()), e, current)
      ensures e.entityId != id ==> Snap() == old(Snap())
    {
      if e.entityId == id {
        var ok := bucket.UpdateBucket(e);
        if ok {
          Aggregate(e, current);
        }
      }
    }

    /** `_aggregate`: with the gate always active, process exactly when the bucket has closed. */
    method Aggregate(e: Event, current: Option<int>)
      requires Valid()
      modifies this, bucket
      ensures Valid() && Cfg() == old(Cfg())
      ensures Snap() == Aggregated(Cfg(), old(Snap()), current)
    {
      gate.CheckActive(e);
      if gate.IsActive() {
        var isNew := bucket.IsNewBucket();
        if isNew {
          Process(current);
        }
      } else {
        // the `has_changed` branch: an ActiveBase gate is never inactive
        assert false;
      }
    }

    /** `_process`. */
    method Process(current: Option<int>)
      requires Valid()
      modifies this, bucket
      ensures Valid() && Cfg() == old(Cfg())
      ensures Snap() == Processed(methods, old(Snap()), current)
    {
      var collected := bucket.values;
      bucket.Flush();
      attributes := attributes[NoOfValues := Count(|collected|)];
      if |collected| == 0 {
        if current.None? {
          // hass.states.get found nothing: the source raises on `.state`
          return;
        }
        collected := [current.value];
      }
      ghost var counted, flushed := attributes, bucket.State();
      for i := 0 to |methods|
        invariant attributes == ApplyMethods(methods[..i], collected, counted)
        invariant bucket.Valid() && bucket.State() == flushed && state == old(state)
      {
        var name := methods[i];
        if name == MethodAvg {
          attributes := attributes[MethodAvg := Mean(AggrAvg(collected))];
        } else if name == MethodMax {
          attributes := attributes[MethodMax := Number(AggrMax(collected))];
        } else if name == MethodMin {
          attributes := attributes[MethodMin := Number(AggrMin(collected))];
        }
        assert methods[..i + 1][..i] == methods[..i];
      }
      assert methods[..|methods|] == methods;
      state := Reading(collected[|collected| - 1]);
    }
  }
}
