/** The older revision, hass-aggregator.py: an entity that follows one source
    entity and passes its states through the `skip` aggregator, which lets
    every (range+1)-th state through and swallows the others. */
module SkipAggregator {
  import opened Optional

  /** `STATE_UNKNOWN`. */
  const StateUnknown := "unknown"

  /** One call of `AggrSkip.aggregate` on the counter: whether the input is
      passed through, and the next counter. */
  function SkipStep(range: int, counter: int): (bool, int) {
    if counter == range then (true, 0) else (false, counter + 1)
  }

  /** The results of successive calls on a sequence of inputs. */
  function SkipOutputs(range: int, counter: int, inputs: seq<string>): (outs: seq<Option<string>>)
    ensures |outs| == |inputs|
    decreases |inputs|
  {
    if inputs == [] then []
    else
      var (emit, next) := SkipStep(range, counter);
      [if emit then Some(inputs[0]) else None] + SkipOutputs(range, next, inputs[1..])
  }

  /** The counter after `n` calls. */
  function SkipCounter(range: int, counter: int, n: nat): int
    decreases n
  {
    if n == 0 then counter else SkipCounter(range, SkipStep(range, counter).1, n - 1)
  }

  /** From a counter within `[0, range]` the counter never leaves it. */
  lemma {:induction false} CounterStaysInRange(range: int, counter: int, n: nat)
    requires 0 <= counter <= range
    ensures 0 <= SkipCounter(range, counter, n) <= range
    decreases n
  {
    if n > 0 {
      CounterStaysInRange(range, SkipStep(range, counter).1, n - 1);
    }
  }

  /** The i-th call passes its input through exactly when the counter it meets equals `range`. */
  lemma {:induction false} OutputAt(range: int, counter: int, inputs: seq<string>, i: nat)
    requires i < |inputs|
    ensures SkipOutputs(range, counter, inputs)[i] ==
      if SkipCounter(range, counter, i) == range then Some(inputs[i]) else None
    decreases i
  {
    if i > 0 {
      OutputAt(range, SkipStep(range, counter).1, inputs[1..], i - 1);
    }
  }

  lemma ModShift(x: int, m: int)
    requires x >= 0 && m > 0
    ensures (x + m) % m == x % m
  {
    var q, r := x / m, x % m;
    assert x == q * m + r;
    assert x + m == (q + 1) * m + r;
    ModUnique(x + m, m, q + 1, r);
  }

  /** The remainder is the only r in [0, m) with x == q * m + r. */
  lemma ModUnique(x: int, m: int, q: int, r: int)
    requires m > 0 && 0 <= r < m && x == q * m + r
    ensures x % m == r
  {
    var q', r' := x / m, x % m;
    assert x == q' * m + r';
    var d := q - q';
    assert d * m == r' - r;
    if d >= 1 {
      AtLeastOnce(d, m);
    } else if d <= -1 {
      AtLeastOnce(-d, m);
    }
  }

  lemma AtLeastOnce(d: int, m: int)
    requires d >= 1 && m > 0
    ensures d * m >= m
  {
  }

  /** From a counter within `[0, range]`, the counter met by the i-th call is
      `(counter + i) mod (range + 1)`. */
  lemma {:induction false} CounterCycles(range: int, counter: int, i: nat)
    requires 0 <= counter <= range
    ensures SkipCounter(range, counter, i) == (counter + i) % (range + 1)
    decreases i
  {
    if i == 0 {
    } else if counter == range {
      CounterCycles(range, 0, i - 1);
      ModShift(i - 1, range + 1);
    } else {
      CounterCycles(range, counter + 1, i - 1);
    }
  }

  /** Starting from counter 0, input i is passed through exactly when
      `i mod (range + 1) == range`, and swallowed otherwise. */
  lemma EmitsEveryRangePlusOne(range: int, inputs: seq<string>)
    requires range >= 0
    ensures forall i :: 0 <= i < |inputs| ==>
      SkipOutputs(range, 0, inputs)[i] == if i % (range + 1) == range then Some(inputs[i]) else None
  {
    forall i | 0 <= i < |inputs|
      ensures SkipOutputs(range, 0, inputs)[i] == if i % (range + 1) == range then Some(inputs[i]) else None
    {
      OutputAt(range, 0, inputs, i);
      CounterCycles(range, 0, i);
    }
  }

  /** From counter c, the next `range - c` inputs are swallowed, the one after
      is passed through unchanged, and the counter is back at 0. */
  lemma {:induction false} EmitsOncePerCycle(range: int, counter: int, inputs: seq<string>)
    requires 0 <= counter <= range
    requires |inputs| == range - counter + 1
    ensures SkipOutputs(range, counter, inputs) == seq(range - counter, _ => None) + [Some(inputs[range - counter])]
    ensures SkipCounter(range, counter, |inputs|) == 0
    decreases range - counter
  {
    if counter < range {
      EmitsOncePerCycle(range, counter + 1, inputs[1..]);
      var nones: seq<Option<string>> := seq(range - counter - 1, _ => None);
      assert [None] + nones == seq(range - counter, _ => None);
    }
  }

  /** A negative range is never met: nothing is ever passed through. */
  lemma {:induction false} NegativeRangeNeverEmits(range: int, counter: int, inputs: seq<string>)
    requires range < 0 <= counter
    ensures forall i :: 0 <= i < |inputs| ==> SkipOutputs(range, counter, inputs)[i] == None
    decreases |inputs|
  {
    if inputs != [] {
      NegativeRangeNeverEmits(range, counter + 1, inputs[1..]);
    }
  }

  /** With range 2, inputs a, b, c give nothing, nothing, c; d opens a new cycle. */
  lemma SkipExample()
    ensures SkipOutputs(2, 0, ["a", "b", "c", "d"]) == [None, None, Some("c"), None]
  {
  }

  /** Python truthiness of an aggregator result: present and not the empty string. */
  predicate Truthy(r: Option<string>) {
    r.Some? && r.value != ""
  }

  /** The displayed state after a sequence of aggregator results. */
  function Displayed(state: string, results: seq<Option<string>>): string
    decreases |results|
  {
    if results == [] then state
    else
      var last := results[|results| - 1];
      if Truthy(last) then last.value else Displayed(state, results[..|results| - 1])
  }

  /** A whole cycle from counter 0 displays its last input, when that is not empty. */
  lemma CycleDisplaysLastInput(range: int, state: string, inputs: seq<string>)
    requires range >= 0 && |inputs| == range + 1 && inputs[range] != ""
    ensures Displayed(state, SkipOutputs(range, 0, inputs)) == inputs[range]
  {
    EmitsOncePerCycle(range, 0, inputs);
  }

  /** `AggrSkip`. */
  class AggrSkip {
    const range: int
    var currentRange: int

    constructor (range: int)
      ensures this.range == range && currentRange == 0
    {
      this.range := range;
      currentRange := 0;
    }

    /** `aggregate`: at the configured range, pass the state through and reset
        the counter; otherwise swallow it and count one up. */
    method Aggregate(state: string) returns (r: Option<string>)
      modifies this
      ensures (r.Some?, currentRange) == SkipStep(range, old(currentRange))
      ensures r.Some? ==> r.value == state
      ensures old(currentRange) == range ==> r == Some(state) && currentRange == 0
      ensures old(currentRange) != range ==> r == None && currentRange == old(currentRange) + 1
    {
      if currentRange == range {
        currentRange := 0;
        return Some(state);
      } else {
        currentRange := currentRange + 1;
        return None;
      }
    }
  }

  /** The `aggregator` section of a configuration entry. */
  datatype AggregatorConfig = AggregatorConfig(methodName: string, range: int)

  /** `get_aggregator`: an `AggrSkip` for method `skip`, nothing for any other. */
  method GetAggregator(cfg: AggregatorConfig) returns (a: AggrSkip?)
    ensures (a != null) == (cfg.methodName == "skip")
    ensures a != null ==> fresh(a) && a.range == cfg.range && a.currentRange == 0
  {
    if cfg.methodName == "skip" {
      a := new AggrSkip(cfg.range);
    } else {
      a := null;
    }
  }

  class AggregatedEntity {
    const idToAggregate: string
    const aggregator: AggrSkip
    var state: string

    /** The source needs an aggregator: it reads its name right away. */
    constructor (idToAggregate: string, cfg: AggregatorConfig)
      requires cfg.methodName == "skip"
      ensures this.idToAggregate == idToAggregate && state == StateUnknown
      ensures fresh(aggregator) && aggregator.range == cfg.range && aggregator.currentRange == 0
    {
      state := StateUnknown;
      var a := GetAggregator(cfg);
      aggregator := a;
      this.idToAggregate := idToAggregate;
    }

    /** `aggregate`: a state of another entity changes nothing; one of the
        source entity goes through the aggregator, and a truthy result
        becomes the displayed state. */
    method Aggregate(entityId: string, newState: string)
      modifies this, aggregator
      ensures entityId != idToAggregate ==>
        state == old(state) && aggregator.currentRange == old(aggregator.currentRange)
      ensures entityId == idToAggregate ==>
        var (emit, next) := SkipStep(aggregator.range, old(aggregator.currentRange));
        && aggregator.currentRange == next
        && state == Displayed(old(state), [if emit then Some(newState) else None])
    {
      if entityId == idToAggregate {
        var r := aggregator.Aggregate(newState);
        if Truthy(r) {
          state := r.value;
        }
      }
    }
  }
}
