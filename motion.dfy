/**
 * `smooth_servo_move` of fingerprint_logic.py: the angles a sweep commands,
 * derived from Python's `range`, and the events a sweep produces.
 */
module Motion {
  import opened Actuators

  /** Python's `range(start, stop, step)`; a zero step raises, so it is excluded.
      The ensures pin the sequence down completely: an arithmetic progression
      from `start` that stays on the near side of `stop` and ends less than one
      step from it. */
  function Range(start: int, stop: int, step: int): (r: seq<int>)
    requires step != 0
    ensures forall i :: 0 <= i < |r| ==> r[i] == start + i * step
    ensures step > 0 ==> forall i :: 0 <= i < |r| ==> r[i] < stop
    ensures step < 0 ==> forall i :: 0 <= i < |r| ==> r[i] > stop
    ensures step > 0 ==>
      if |r| == 0 then start >= stop else start + (|r| - 1) * step < stop <= start + |r| * step
    ensures step < 0 ==>
      if |r| == 0 then start <= stop else start + (|r| - 1) * step > stop >= start + |r| * step
    decreases if step > 0 then stop - start else start - stop
  {
    if (step > 0 && start < stop) || (step < 0 && start > stop) then
      var rest := Range(start + step, stop, step);
      ShiftProgression(rest, start, step);
      [start] + rest
    else
      []
  }

  lemma ShiftProgression(rest: seq<int>, start: int, step: int)
    requires forall j :: 0 <= j < |rest| ==> rest[j] == start + step + j * step
    ensures forall i :: 1 <= i <= |rest| ==> ([start] + rest)[i] == start + i * step
    ensures start + step + (|rest| - 1) * step == start + |rest| * step
    ensures start + step + |rest| * step == start + (|rest| + 1) * step
  {
    forall i | 1 <= i <= |rest|
      ensures ([start] + rest)[i] == start + i * step
    {
      assert ([start] + rest)[i] == rest[i - 1];
    }
  }

  /** The angles `smooth_servo_move(servo, start, end, step)` assigns, in order. */
  function SmoothAngles(start: int, end: int, step: int): (r: seq<int>)
    requires step != 0
    ensures step > 0 ==> |r| > 0 && r[0] == start
  {
    if start < end then Range(start, end + 1, step) else Range(start, end - 1, -step)
  }

  /** The events of a sweep: each angle is written, then the step delay elapses. */
  function SweepEvents(s: Servo, angles: seq<int>, delayMs: nat): (es: seq<Event>)
    ensures |es| == 2 * |angles|
    decreases |angles|
  {
    if angles == [] then []
    else SweepEvents(s, angles[..|angles| - 1], delayMs)
         + [Write(s.channel, CommandedRaw(s, angles[|angles| - 1])), Sleep(delayMs)]
  }

  /** Adding one angle to a sweep adds its write and its delay at the end. */
  lemma SweepEventsSnoc(s: Servo, angles: seq<int>, angle: int, delayMs: nat)
    ensures SweepEvents(s, angles + [angle], delayMs)
         == SweepEvents(s, angles, delayMs) + [Write(s.channel, CommandedRaw(s, angle)), Sleep(delayMs)]
  {
    assert (angles + [angle])[..|angles|] == angles;
  }

  /** A rising sweep starts at `start`, climbs by exactly `step`, never passes
      `end`, stops less than one step short of it, and includes `end` exactly
      when `step` divides the distance. */
  lemma AscendingSweep(start: int, end: int, step: int)
    requires start < end && step > 0
    ensures var r := SmoothAngles(start, end, step);
      && |r| > 0 && r[0] == start
      && (forall i :: 0 <= i < |r| ==> start <= r[i] <= end)
      && (forall i :: 0 <= i < |r| - 1 ==> r[i + 1] == r[i] + step)
      && r[|r| - 1] > end - step
      && (end in r <==> (end - start) % step == 0)
  {
    var r := SmoothAngles(start, end, step);
    forall i | 0 <= i < |r|
      ensures start <= r[i]
    {
      MulMonotone(0, i, step);
    }
    if (end - start) % step == 0 {
      var k := (end - start) / step;
      assert end - start == k * step;
      MulStrictCancel(0, k, step);
      MulStrictCancel(k, |r|, step);
      assert r[k] == end;
    }
    if end in r {
      var i :| 0 <= i < |r| && r[i] == end;
      ModOfMultiple(end - start, i, step);
    }
  }

  /** A falling or standing sweep starts at `start`, descends by exactly
      `step`, never passes `end`, stops less than one step short of it, and
      when start == end it is one command, not none. */
  lemma DescendingSweep(start: int, end: int, step: int)
    requires start >= end && step > 0
    ensures var r := SmoothAngles(start, end, step);
      && |r| > 0 && r[0] == start
      && (forall i :: 0 <= i < |r| ==> end <= r[i] <= start)
      && (forall i :: 0 <= i < |r| - 1 ==> r[i + 1] == r[i] - step)
      && r[|r| - 1] < end + step
      && (start == end ==> r == [start])
  {
    var r := SmoothAngles(start, end, step);
    forall i | 0 <= i < |r|
      ensures r[i] <= start
    {
      MulMonotone(0, i, step);
    }
    if start == end {
      assert (|r| - 1) * step < 1 * step;
      MulStrictCancel(|r| - 1, 1, step);
    }
  }

  /** A negative step makes Python's range empty in both directions. */
  lemma NegativeStepSweep(start: int, end: int, step: int)
    requires step < 0
    ensures SmoothAngles(start, end, step) == []
  {
  }

  /** The swing arm's opening sweep: 61 commands 0, 2, ..., 120. */
  lemma OpeningSwingSweep()
    ensures var r := SmoothAngles(0, 120, 2);
      |r| == 61 && r[60] == 120 && forall i :: 0 <= i < 61 ==> r[i] == 2 * i
  {
  }

  function Reverse(s: seq<int>): (r: seq<int>)
    ensures |r| == |s| && forall i :: 0 <= i < |s| ==> r[i] == s[|s| - 1 - i]
  {
    seq(|s|, i requires 0 <= i < |s| => s[|s| - 1 - i])
  }

  /** When the step divides the distance, the way back retraces the way out. */
  lemma {:induction false} SweepReversal(start: int, end: int, step: int)
    requires start < end && step > 0 && (end - start) % step == 0
    ensures SmoothAngles(end, start, step) == Reverse(SmoothAngles(start, end, step))
  {
    var up := SmoothAngles(start, end, step);
    var down := SmoothAngles(end, start, step);
    var k := (end - start) / step;
    assert end - start == k * step;
    MulStrictCancel(|up| - 1, k + 1, step);
    MulStrictCancel(k, |up|, step);
    MulStrictCancel(|down| - 1, k + 1, step);
    MulStrictCancel(k, |down|, step);
    assert |up| == k + 1 && |down| == k + 1;
    forall i | 0 <= i <= k
      ensures down[i] == up[k - i]
    {
      assert (k - i) * step == k * step - i * step;
    }
  }

  /** The swing arm's closing sweep is the opening sweep in reverse, 61
      commands from 120 down to 0. */
  lemma ClosingSwingSweep()
    ensures SmoothAngles(120, 0, 2) == Reverse(SmoothAngles(0, 120, 2))
    ensures var r := SmoothAngles(120, 0, 2); |r| == 61 && r[0] == 120 && r[60] == 0
  {
    SweepReversal(0, 120, 2);
    OpeningSwingSweep();
  }

  lemma MulMonotone(a: int, b: int, c: int)
    requires a <= b && c > 0
    ensures a * c <= b * c
  {
  }

  lemma MulStrictCancel(a: int, b: int, c: int)
    requires c > 0 && a * c < b * c
    ensures a < b
  {
  }

  lemma ModOfMultiple(x: int, q: int, step: int)
    requires step > 0 && x == q * step
    ensures x % step == 0
  {
    var m := q - x / step;
    assert x % step == m * step;
    MulStrictCancel(m, 1, step);
    MulStrictCancel(-1, m, step);
  }

  /** A sweep on a plain servo writes exactly its angles to the servo's
      channel, and nothing to any other channel. */
  lemma {:induction false} SweepWrites(s: Servo, angles: seq<int>, delayMs: nat, channel: nat)
    ensures channel != s.channel ==> Writes(SweepEvents(s, angles, delayMs), channel) == []
    ensures channel == s.channel && !s.inverted ==> Writes(SweepEvents(s, angles, delayMs), channel) == angles
    decreases |angles|
  {
    if angles != [] {
      var init := angles[..|angles| - 1];
      var last := angles[|angles| - 1];
      var tail := [Write(s.channel, CommandedRaw(s, last)), Sleep(delayMs)];
      SweepWrites(s, init, delayMs, channel);
      WritesConcat(SweepEvents(s, init, delayMs), tail, channel);
      assert tail[1..] == [Sleep(delayMs)];
      assert Writes(tail[1..], channel) == [] by {
        assert tail[1..][1..] == [];
      }
      assert init + [last] == angles;
    }
  }

  /** Replaying a sweep leaves its channel at the last angle written and
      every other channel as it was. */
  lemma {:induction false} SweepReplay(raw: map<nat, int>, s: Servo, angles: seq<int>, delayMs: nat)
    ensures Replay(raw, SweepEvents(s, angles, delayMs))
         == if angles == [] then raw else raw[s.channel := CommandedRaw(s, angles[|angles| - 1])]
    decreases |angles|
  {
    if angles != [] {
      var init := angles[..|angles| - 1];
      var last := angles[|angles| - 1];
      var ev := Write(s.channel, CommandedRaw(s, last));
      var tail := [ev, Sleep(delayMs)];
      SweepReplay(raw, s, init, delayMs);
      ReplayConcat(raw, SweepEvents(s, init, delayMs), tail);
      var before := Replay(raw, SweepEvents(s, init, delayMs));
      assert tail[1..] == [Sleep(delayMs)];
      assert Replay(Step(before, ev), tail[1..]) == Step(before, ev) by {
        assert tail[1..][1..] == [];
      }
    }
  }
}
