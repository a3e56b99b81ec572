/**
 Deadlines: saturating addition, the fixed-rate grid, and the manual clock.

 An instant is a count of nanoseconds in the range of a signed 64-bit count of seconds, a
 duration one in the range of an unsigned 64-bit count of seconds; both carry a nanosecond
 part below one billion. The arithmetic is written with the source's own widths.
 */
module Deadlines {
  import opened Wrappers

  const NANOS := 1_000_000_000
  const U64 := 0x1_0000_0000_0000_0000
  const U128 := U64 * U64
  const MAX_INSTANT := (U64 / 2) * NANOS - 1
  const MIN_INSTANT := -(U64 / 2) * NANOS
  const MAX_DURATION := U64 * NANOS - 1

  type Instant = t: int | MIN_INSTANT <= t <= MAX_INSTANT
  type Duration = d: int | 0 <= d <= MAX_DURATION

  /** The gap between two ticks, which cannot be zero. */
  type Interval = d: int | 0 < d <= MAX_DURATION witness 1

  function CheckedAdd(now: Instant, d: Duration): Option<Instant> {
    if now + d <= MAX_INSTANT then Some(now + d) else None
  }

  function SinceOrZero(now: Instant, earlier: Instant): Duration {
    if now <= earlier then 0 else now - earlier
  }

  // ----- FireAt::after -----

  /** `d` halved until it fits in `room`. */
  function HalvedToFit(d: nat, room: nat): (r: nat)
    ensures r <= room && r <= d
    ensures d <= room ==> r == d
    ensures d > room ==> room <= 2 * r
  {
    if d <= room then d else HalvedToFit(d / 2, room)
  }

  function FireAfter(now: Instant, delay: Duration): Instant {
    now + HalvedToFit(delay, MAX_INSTANT - now)
  }

  method After(now: Instant, delay: Duration) returns (deadline: Instant)
    ensures deadline == FireAfter(now, delay)
  {
    var sum := CheckedAdd(now, delay);
    if sum.Some? {
      return sum.value;
    }
    var d := delay;
    while true
      invariant now + d > MAX_INSTANT
      invariant HalvedToFit(d, MAX_INSTANT - now) == HalvedToFit(delay, MAX_INSTANT - now)
      decreases d
    {
      d := d / 2;
      if d == 0 {
        return now;
      }
      sum := CheckedAdd(now, d);
      if sum.Some? {
        return sum.value;
      }
    }
  }

  /**
   A deadline is never before now; it is exact precisely when the sum fits; it is strictly
   after now precisely when there is a delay and a later instant; and when the sum does not
   fit, it still lies at or past the middle of what is left.
   */
  lemma FireAfterSaturatesUpwards(now: Instant, delay: Duration)
    ensures now <= FireAfter(now, delay)
    ensures FireAfter(now, delay) == now + delay <==> now + delay <= MAX_INSTANT
    ensures now < FireAfter(now, delay) <==> delay > 0 && now < MAX_INSTANT
    ensures now + delay > MAX_INSTANT ==> MAX_INSTANT - now <= 2 * (FireAfter(now, delay) - now)
  {
  }

  // ----- next_fixed_rate -----

  function SaturatingMulU128(a: nat, b: nat): nat {
    if a * b < U128 then a * b else U128 - 1
  }

  /** Seconds and nanoseconds put back together, or the longest duration if the seconds do not fit. */
  function DurationOf(nanos: nat): Duration {
    var seconds, remainder := nanos / NANOS, nanos % NANOS;
    if seconds < U64 then seconds * NANOS + remainder else MAX_DURATION
  }

  function Ticks(armedAt: Instant, interval: Interval, now: Instant): nat {
    SinceOrZero(now, armedAt) / interval + 1
  }

  function NextFixedRate(armedAt: Instant, interval: Interval, now: Instant): Instant {
    FireAfter(armedAt, DurationOf(SaturatingMulU128(Ticks(armedAt, interval, now), interval)))
  }

  /** The distance from arming to the first grid point past `now`, as a mathematical number. */
  ghost function GridOffset(armedAt: int, interval: int, now: int): int
    requires interval > 0
  {
    ((if now <= armedAt then 0 else now - armedAt) / interval + 1) * interval
  }

  lemma GridOffsetBounds(armedAt: int, interval: int, now: int)
    requires interval > 0
    ensures var elapsed := if now <= armedAt then 0 else now - armedAt;
            elapsed < GridOffset(armedAt, interval, now) <= elapsed + interval
  {
    var elapsed := if now <= armedAt then 0 else now - armedAt;
    var q := elapsed / interval;
    assert elapsed == q * interval + elapsed % interval;
    assert GridOffset(armedAt, interval, now) == q * interval + interval;
  }

  lemma AtLeastOneStep(k: nat, m: int)
    requires m > 0
    ensures k > 0 ==> k * m >= m
  {
    if k > 0 {
      assert k * m == (k - 1) * m + m;
    }
  }

  /** The 128-bit product never saturates, and the split into seconds and nanoseconds loses nothing that fits. */
  lemma OffsetIsExact(armedAt: Instant, interval: Interval, now: Instant)
    ensures var offset := GridOffset(armedAt, interval, now);
      && 0 < offset < U128
      && SaturatingMulU128(Ticks(armedAt, interval, now), interval) == offset
      && DurationOf(offset) == if offset <= MAX_DURATION then offset else MAX_DURATION
  {
    GridOffsetBounds(armedAt, interval, now);
    var offset := GridOffset(armedAt, interval, now);
    assert offset <= 2 * MAX_DURATION < U128;
    assert offset == (offset / NANOS) * NANOS + offset % NANOS;
  }

  /** Add intervals to `at` until it passes `now`. */
  ghost function StepUntilPast(at: int, interval: int, now: int): int
    requires interval > 0
    decreases now - at
  {
    if at > now then at else StepUntilPast(at + interval, interval, now)
  }

  lemma {:induction false} StepsLandOnGrid(at: int, interval: int, now: int, k: nat)
    requires interval > 0 && at <= now + interval
    requires now < at + k * interval <= now + interval
    ensures StepUntilPast(at, interval, now) == at + k * interval
    decreases k
  {
    AtLeastOneStep(k, interval);
    if at <= now {
      assert k > 0;
      assert at + k * interval == at + interval + (k - 1) * interval;
      AtLeastOneStep(k - 1, interval);
      StepsLandOnGrid(at + interval, interval, now, k - 1);
    }
  }

  /**
   One division replaces the loop. Whenever the grid point is representable, the answer is
   what adding intervals one at a time from `armedAt` would reach: on the grid, strictly
   after `now`, and at most one interval past it.
   */
  lemma NextFixedRateIsTheNaiveLoop(armedAt: Instant, interval: Interval, now: Instant)
    requires armedAt <= now && armedAt + GridOffset(armedAt, interval, now) <= MAX_INSTANT
    ensures var next := NextFixedRate(armedAt, interval, now);
      && next == StepUntilPast(armedAt + interval, interval, now)
      && now < next <= now + interval
      && next == armedAt + Ticks(armedAt, interval, now) * interval
  {
    OffsetIsExact(armedAt, interval, now);
    GridOffsetBounds(armedAt, interval, now);
    var offset := GridOffset(armedAt, interval, now);
    assert MAX_INSTANT - armedAt <= MAX_DURATION;
    assert NextFixedRate(armedAt, interval, now) == armedAt + offset;
    var q := (now - armedAt) / interval;
    assert offset == interval + q * interval;
    StepsLandOnGrid(armedAt + interval, interval, now, q);
  }

  /**
   When the next deadline is strictly in the future. It always is while the grid point is
   representable. Past that, once a whole interval has elapsed, it never is: the halved offset
   lands at or before `now`, and a schedule re-armed there fires again at once. Within the
   first interval it depends on how far the halving reaches; at the moment of arming it is
   enough that a later instant exists. (Only a schedule armed at the very first instant has
   room for the longest duration, so its saturated offset is never halved.)
   */
  lemma NextFixedRateStrictlyAfterNow(armedAt: Instant, interval: Interval, now: Instant)
    requires armedAt <= now
    ensures armedAt + GridOffset(armedAt, interval, now) <= MAX_INSTANT ==> now < NextFixedRate(armedAt, interval, now)
    ensures now - armedAt >= interval && armedAt > MIN_INSTANT ==>
              (now < NextFixedRate(armedAt, interval, now)
               <==> armedAt + GridOffset(armedAt, interval, now) <= MAX_INSTANT)
    ensures now - armedAt < interval ==>
              (now < NextFixedRate(armedAt, interval, now)
               <==> now - armedAt < HalvedToFit(interval, MAX_INSTANT - armedAt))
    ensures now == armedAt || armedAt == MIN_INSTANT ==>
              (now < NextFixedRate(armedAt, interval, now) <==> now < MAX_INSTANT)
  {
    hide GridOffset, NextFixedRate, HalvedToFit;
    GridOffsetBounds(armedAt, interval, now);
    var offset, room := GridOffset(armedAt, interval, now), MAX_INSTANT - armedAt;
    LandsAt(armedAt, interval, now);
    if now - armedAt < interval {
      FirstIntervalOffset(armedAt, interval, now);
    }
    HalvedOffset(offset, room, now - armedAt);
  }

  lemma LandsAt(armedAt: Instant, interval: Interval, now: Instant)
    ensures var offset := GridOffset(armedAt, interval, now);
      && offset > 0
      && NextFixedRate(armedAt, interval, now)
         == armedAt + HalvedToFit(if offset <= MAX_DURATION then offset else MAX_DURATION, MAX_INSTANT - armedAt)
  {
    hide GridOffset, HalvedToFit, DurationOf, SaturatingMulU128, Ticks;
    OffsetIsExact(armedAt, interval, now);
  }

  lemma FirstIntervalOffset(armedAt: int, interval: int, now: int)
    requires 0 <= now - armedAt < interval
    ensures GridOffset(armedAt, interval, now) == interval
  {
    assert (now - armedAt) / interval == 0;
  }

  /** An offset at most twice what has elapsed is halved to no more than that, if it is halved at all. */
  lemma HalvedOffset(offset: nat, room: nat, elapsed: nat)
    requires elapsed <= room <= MAX_DURATION
    ensures var d := if offset <= MAX_DURATION then offset else MAX_DURATION;
      && (offset <= room ==> HalvedToFit(d, room) == offset)
      && (offset > room && offset <= 2 * elapsed && room < MAX_DURATION ==> HalvedToFit(d, room) <= elapsed)
  {
    var d := if offset <= MAX_DURATION then offset else MAX_DURATION;
    if d > room {
      assert HalvedToFit(d, room) == HalvedToFit(d / 2, room) <= d / 2;
    }
  }

  /** The documented promise that a saturating schedule never lands in the past does not hold. */
  lemma SaturatedGridLandsInThePast()
    ensures exists armedAt: Instant, interval: Interval, now: Instant ::
              armedAt + interval <= now && NextFixedRate(armedAt, interval, now) < now
  {
    var armedAt: Instant, interval: Interval, now: Instant := MAX_INSTANT - 100, 60, MAX_INSTANT - 30;
    assert GridOffset(armedAt, interval, now) == 120;
    OffsetIsExact(armedAt, interval, now);
    assert HalvedToFit(120, 100) == HalvedToFit(60, 100) == 60;
    assert NextFixedRate(armedAt, interval, now) == MAX_INSTANT - 40;
  }

  // ----- the manual clock -----

  /** A clock that moves only when moved. */
  class ManualClock {
    var now: Instant

    constructor (start: Instant)
      ensures now == start
    {
      now := start;
    }

    /** Moves by `step`, or stays put if that would leave the range of an instant. */
    method Advance(step: Duration)
      modifies this
      ensures now == if old(now) + step <= MAX_INSTANT then old(now) + step else old(now)
      ensures old(now) <= now
    {
      var sum := CheckedAdd(now, step);
      now := if sum.Some? then sum.value else now;
    }

    method AdvanceTo(deadline: Instant)
      modifies this
      ensures now == if deadline > old(now) then deadline else old(now)
      ensures old(now) <= now
    {
      if deadline > now {
        now := deadline;
      }
    }
  }

  datatype Reading = Clock(now: Instant) | ClockGone

  /**
   The timer's wait over the values it observes: it resolves at the first one at or past the
   deadline, or when the clock itself is gone, and not before. A waiter that looks late sees
   the latest value, so it misses nothing by skipping the ones in between.
   */
  method AwaitTimer(deadline: Instant, seen: seq<Reading>) returns (resolved: Option<nat>)
    ensures resolved.Some? ==>
              && resolved.value < |seen|
              && (seen[resolved.value].ClockGone? || seen[resolved.value].now >= deadline)
              && forall i | 0 <= i < resolved.value :: seen[i].Clock? && seen[i].now < deadline
    ensures resolved.None? ==> forall i | 0 <= i < |seen| :: seen[i].Clock? && seen[i].now < deadline
  {
    var i := 0;
    while i < |seen|
      invariant 0 <= i <= |seen|
      invariant forall j | 0 <= j < i :: seen[j].Clock? && seen[j].now < deadline
    {
      match seen[i] {
        case Clock(now) =>
          if now >= deadline {
            return Some(i);
          }
        case ClockGone =>
          return Some(i);
      }
      i := i + 1;
    }
    return None;
  }
}
