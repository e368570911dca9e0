/** The buckets of hass_aggregator.py: `BucketBase` with its two subclasses
    `AttributeChangeBucket` (closes after `size` state values) and
    `TimeChangeBucket` (closes when the minute moves into another `size`-minute
    slot). The two subclasses become one class tagged by its `Trigger`. */
module Buckets {
  import opened Optional

  /** An event as the handlers receive it: a state change of some entity,
      whose new state is absent when the entity was removed, or a clock tick
      carrying the current minute. */
  datatype Event =
    | StateChanged(entityId: string, newState: Option<int>)
    | TimeChanged(minute: nat)

  /** The configured `trigger` of a bucket. */
  datatype Trigger = OnState | OnTime

  /** A value in an entity's attribute map. */
  datatype Attr = Text(text: string) | Count(n: int) | Number(v: int) | Mean(r: real)

  const TriggerKey := "trigger"
  const SizeKey := "size"

  /** The configuration word for a trigger. */
  function TriggerName(t: Trigger): string {
    match t
    case OnState => "state"
    case OnTime => "time"
  }

  /** `get_bucket`: the bucket kind a configured trigger word selects, or None
      for an undefined trigger (the source logs an error and builds nothing). */
  function ParseTrigger(name: string): (t: Option<Trigger>)
    ensures t.Some? ==> TriggerName(t.value) == name
    ensures t.None? ==> forall u: Trigger :: TriggerName(u) != name
  {
    if name == "state" then Some(OnState)
    else if name == "time" then Some(OnTime)
    else None
  }

  lemma TriggerNameRoundTrip(t: Trigger)
    ensures ParseTrigger(TriggerName(t)) == Some(t)
  {
  }

  /** `int(minute / size)`: the index of the `size`-minute slot holding `minute`. */
  function Slot(minute: nat, size: int): (slot: int)
    requires size >= 1
    ensures size * slot <= minute < size * (slot + 1)
  {
    minute / size
  }

  /** The attribute map of a bucket: the trigger word under `trigger` and the
      size under `size`, and nothing else. */
  function BucketAttributes(trigger: Trigger, size: int): (attrs: map<string, Attr>)
    ensures attrs.Keys == {TriggerKey, SizeKey}
    ensures attrs[TriggerKey].Text? && ParseTrigger(attrs[TriggerKey].text) == Some(trigger)
    ensures attrs[SizeKey] == Count(size)
  {
    TriggerNameRoundTrip(trigger);
    map[TriggerKey := Text(TriggerName(trigger)), SizeKey := Count(size)]
  }

  /** The fields a bucket updates: the collected values, and for a time
      bucket the current slot and the last minute seen. */
  datatype BucketState = BucketState(values: seq<int>, currentBucket: Option<int>, currentMinute: Option<nat>)

  const Empty := BucketState([], None, None)

  /** `update_bucket`: a state event appends its new state; a time event sets
      the minute of a time bucket and is ignored by a count bucket. None when
      the state event has no new state, where the source raises on `.state`. */
  function Updated(trigger: Trigger, b: BucketState, e: Event): Option<BucketState> {
    match e
    case StateChanged(_, newState) =>
      if newState.None? then None else Some(b.(values := b.values + [newState.value]))
    case TimeChanged(minute) =>
      if trigger == OnState then Some(b) else Some(b.(currentMinute := Some(minute)))
  }

  /** `is_new_bucket`: whether the bucket has closed, and the bucket after the check. */
  function Checked(trigger: Trigger, size: int, b: BucketState): (bool, BucketState)
    requires trigger == OnTime ==> size >= 1
  {
    if trigger == OnState then (|b.values| >= size, b)
    else match b.currentMinute
      case None => (false, b)
      case Some(minute) =>
        var slot := Slot(minute, size);
        if b.currentBucket.None? then (false, b.(currentBucket := Some(slot)))
        else if b.currentBucket.value == slot then (false, b)
        else (true, b.(currentBucket := Some(slot)))
  }

  /** The three cases of the time bucket's check. */
  lemma TimeCheckCases(size: int, b: BucketState)
    requires size >= 1
    ensures b.currentMinute.None? ==> Checked(OnTime, size, b) == (false, b)
    ensures b.currentMinute.Some? && b.currentBucket.None? ==>
      Checked(OnTime, size, b) == (false, b.(currentBucket := Some(Slot(b.currentMinute.value, size))))
    ensures b.currentMinute.Some? && b.currentBucket.Some? ==>
      var slot := Slot(b.currentMinute.value, size);
      Checked(OnTime, size, b) == (b.currentBucket.value != slot, b.(currentBucket := Some(slot)))
  {
  }

  /** Checking again without a new event reports no boundary and changes nothing. */
  lemma RepeatedCheckIsQuiet(trigger: Trigger, size: int, b: BucketState)
    requires trigger == OnTime ==> size >= 1
    requires trigger == OnState ==> |b.values| < size
    ensures var after := Checked(trigger, size, b).1;
      Checked(trigger, size, after) == (false, after)
  {
  }

  /** A clock tick as the entity applies it to a time bucket: set the minute, then check. */
  function Tick(size: int, b: BucketState, minute: nat): (bool, BucketState)
    requires size >= 1
  {
    Checked(OnTime, size, Updated(OnTime, b, TimeChanged(minute)).value)
  }

  /** The boundary reported by each tick of a sequence of minutes. */
  function TickFlags(size: int, b: BucketState, minutes: seq<nat>): (flags: seq<bool>)
    requires size >= 1
    ensures |flags| == |minutes|
    decreases |minutes|
  {
    if minutes == [] then []
    else
      var (isNew, next) := Tick(size, b, minutes[0]);
      [isNew] + TickFlags(size, next, minutes[1..])
  }

  /** The bucket after a sequence of ticks. */
  function AfterTicks(size: int, b: BucketState, minutes: seq<nat>): BucketState
    requires size >= 1
    decreases |minutes|
  {
    if minutes == [] then b else AfterTicks(size, Tick(size, b, minutes[0]).1, minutes[1..])
  }

  /** Over any sequence of minutes, including one that wraps from 59 to 0, a
      tick reports a boundary exactly when its slot differs from the previous
      tick's; the first tick does so only against an established slot. The
      collected values are never touched and the last slot is stored. */
  lemma {:induction false} BoundariesFollowSlots(size: int, b: BucketState, minutes: seq<nat>)
    requires size >= 1
    ensures |minutes| > 0 ==>
      TickFlags(size, b, minutes)[0] == (b.currentBucket.Some? && b.currentBucket.value != Slot(minutes[0], size))
    ensures forall i :: 0 < i < |minutes| ==>
      TickFlags(size, b, minutes)[i] == (Slot(minutes[i], size) != Slot(minutes[i - 1], size))
    ensures AfterTicks(size, b, minutes).values == b.values
    ensures |minutes| > 0 ==>
      AfterTicks(size, b, minutes).currentBucket == Some(Slot(minutes[|minutes| - 1], size))
    decreases |minutes|
  {
    if minutes != [] {
      var next := Tick(size, b, minutes[0]).1;
      var rest := minutes[1..];
      BoundariesFollowSlots(size, next, rest);
      assert next.currentBucket == Some(Slot(minutes[0], size));
      var flags := TickFlags(size, b, minutes);
      assert flags[1..] == TickFlags(size, next, rest);
      forall i | 0 < i < |minutes|
        ensures flags[i] == (Slot(minutes[i], size) != Slot(minutes[i - 1], size))
      {
        assert flags[i] == TickFlags(size, next, rest)[i - 1];
        assert rest[i - 1] == minutes[i];
        if i > 1 {
          assert rest[i - 2] == minutes[i - 1];
        }
      }
      if rest != [] {
        assert rest[|rest| - 1] == minutes[|minutes| - 1];
      }
    }
  }

  /** Minute 1 with a 10-minute cycle sets slot 0 without a boundary; minute 5
      stays in it; minute 11 opens slot 1. */
  lemma SlotRuleExample()
    ensures Tick(10, Empty, 1) == (false, BucketState([], Some(0), Some(1)))
    ensures TickFlags(10, Empty, [1, 5, 11]) == [false, false, true]
    ensures AfterTicks(10, Empty, [1, 5, 11]).currentBucket == Some(1)
  {
    BoundariesFollowSlots(10, Empty, [1, 5, 11]);
  }

  /** A bucket object. The count bucket never sets `currentBucket` or `currentMinute`. */
  class Bucket {
    const trigger: Trigger
    const size: int
    var values: seq<int>
    var currentBucket: Option<int>
    var currentMinute: Option<nat>

    ghost predicate Valid()
      reads this
    {
      (trigger == OnTime ==> size >= 1) &&
      (trigger == OnState ==> currentBucket.None? && currentMinute.None?)
    }

    function State(): BucketState
      reads this
    {
      BucketState(values, currentBucket, currentMinute)
    }

    constructor (trigger: Trigger, size: int)
      requires trigger == OnTime ==> size >= 1
      ensures Valid()
      ensures this.trigger == trigger && this.size == size
      ensures State() == Empty
    {
      this.trigger := trigger;
      this.size := size;
      values := [];
      currentBucket := None;
      currentMinute := None;
    }

    /** `get_state_attributes`: the trigger word and the size. */
    function StateAttributes(): (attrs: map<string, Attr>)
      reads this
      ensures attrs.Keys == {TriggerKey, SizeKey}
      ensures attrs[TriggerKey].Text? && ParseTrigger(attrs[TriggerKey].text) == Some(trigger)
      ensures attrs[SizeKey] == Count(size)
    {
      BucketAttributes(trigger, size)
    }

    /** `update_bucket`. Returns false, changing nothing, where the source
        raises because the state event carries no new state. */
    method UpdateBucket(e: Event) returns (ok: bool)
      requires Valid()
      modifies this
      ensures Valid()
      ensures ok == Updated(trigger, old(State()), e).Some?
      ensures State() == Updated(trigger, old(State()), e).GetOr(old(State()))
      ensures e.StateChanged? && ok ==> values == old(values) + [e.newState.value]
      ensures e.StateChanged? ==> currentBucket == old(currentBucket) && currentMinute == old(currentMinute)
      ensures e.TimeChanged? ==> values == old(values) && currentBucket == old(currentBucket)
      ensures e.TimeChanged? ==> currentMinute == if trigger == OnTime then Some(e.minute) else old(currentMinute)
    {
      ok := true;
      match e
      case StateChanged(_, newState) =>
        if newState.None? {
          ok := false;
        } else {
          values := values + [newState.value];
        }
      case TimeChanged(minute) =>
        if trigger == OnTime {
          currentMinute := Some(minute);
        }
    }

    /** `is_new_bucket`. A count bucket closes once it holds `size` values or
        more. A time bucket reports nothing before its first minute, takes the
        first slot as its baseline, and afterwards closes exactly when the slot
        of the current minute differs from the stored one, storing the new one. */
    method IsNewBucket() returns (isNew: bool)
      requires Valid()
      modifies this
      ensures Valid()
      ensures (isNew, State()) == Checked(trigger, size, old(State()))
      ensures trigger == OnState ==> isNew == (|values| >= size) && State() == old(State())
      ensures values == old(values) && currentMinute == old(currentMinute)
    {
      if trigger == OnState {
        isNew := |values| >= size;
      } else {
        if currentMinute.None? {
          // the source logs an error: no minute has been seen yet
          return false;
        }
        var slot := currentMinute.value / size;
        if currentBucket.None? {
          currentBucket := Some(slot);
          return false;
        }
        if slot == currentBucket.value {
          return false;
        }
        currentBucket := Some(slot);
        isNew := true;
      }
    }

    /** `flush`: empties the collected values; the slot and minute are kept. */
    method Flush()
      requires Valid()
      modifies this
      ensures Valid()
      ensures values == [] && currentBucket == old(currentBucket) && currentMinute == old(currentMinute)
    {
      values := [];
    }
  }
}
