/**
 * servo_controller.py: a single plain servo on PCA9685 channel 3 (the
 * library's default 180-degree range) raised by 90 degrees (capped at 139),
 * held, and put back at its start angle: the reading it had, or 45 when the
 * reading was None or 0.
 */
module ServoController {
  import opened Optional
  import opened Actuators

  const Legacy := Servo(3, 180, false)
  const DefaultStart := 45
  const RaiseBy := 90
  const RaiseCeiling := 139
  const RaiseSettleMs := 2000
  const HoldMs := 10000
  const RestoreSettleMs := 2000

  /** The angle the cycle starts from: the reading, with both "never driven"
      and 0 replaced by 45. */
  function StartAngle(reading: Option<int>): (a: int)
    ensures reading.None? || reading == Some(0) ==> a == DefaultStart
    ensures reading.Some? && reading.value != 0 ==> a == reading.value
  {
    AngleOr(reading, DefaultStart)
  }

  /** `min(current + 90, 139)`: never above 139, and a full 90-degree raise
      exactly when the start is at most 49. */
  function RaisedAngle(current: int): (r: int)
    ensures r <= RaiseCeiling
    ensures r == current + RaiseBy <==> current <= RaiseCeiling - RaiseBy
    ensures current > RaiseCeiling - RaiseBy ==> r == RaiseCeiling
    ensures r >= current || current > RaiseCeiling
  {
    if current + RaiseBy < RaiseCeiling then current + RaiseBy else RaiseCeiling
  }

  /** The events of one cycle from the start angle `start`. */
  function CycleEvents(start: int): (es: seq<Event>)
    ensures |es| == 5 && es[0].Write? && es[3].Write?
  {
    [Write(Legacy.channel, RaisedAngle(start)), Sleep(RaiseSettleMs), Sleep(HoldMs),
     Write(Legacy.channel, start), Sleep(RestoreSettleMs)]
  }

  /** A cycle writes the servo exactly twice, raise then restore. */
  lemma CycleWrites(start: int)
    ensures Writes(CycleEvents(start), Legacy.channel) == [RaisedAngle(start), start]
  {
    var es := CycleEvents(start);
    assert es == [es[0]] + ([es[1]] + ([es[2]] + ([es[3]] + ([es[4]] + []))));
    WritesCons(es[0], es[1..], Legacy.channel);
    WritesCons(es[1], es[2..], Legacy.channel);
    WritesCons(es[2], es[3..], Legacy.channel);
    WritesCons(es[3], es[4..], Legacy.channel);
    WritesCons(es[4], [], Legacy.channel);
    assert es[1..] == [es[1]] + es[2..];
    assert es[2..] == [es[2]] + es[3..];
    assert es[3..] == [es[3]] + es[4..];
    assert es[4..] == [es[4]] + [];
  }

  /** The servo of servo_controller.py: the raw angle last written to its
      channel (None before any write) and the record of writes and pauses. */
  class LegacyServo {
    var raw: Option<int>
    ghost var events: seq<Event>

    /** A driven channel holds an angle the library accepted. */
    ghost predicate Valid()
      reads this
    {
      raw.Some? ==> 0 <= raw.value <= Legacy.actuationRange
    }

    constructor ()
      ensures Valid() && raw.None? && events == []
    {
      raw := None;
      events := [];
    }

    /** `open_and_close_servo`: raise by 90 (capped at 139), wait 2 s and
        10 s, write the start angle back, wait 2 s. The servo ends at the
        start angle, which is its old reading unless that was None or 0. */
    method OpenAndCloseServo()
      requires Valid()
      modifies this
      ensures Valid()
      ensures events == old(events) + CycleEvents(StartAngle(Reading(Legacy, old(raw))))
      ensures raw == Some(StartAngle(Reading(Legacy, old(raw))))
      ensures old(raw).Some? && old(raw).value != 0 ==> raw == old(raw)
      ensures old(raw).None? || old(raw) == Some(0) ==> raw == Some(DefaultStart)
    {
      var current := AngleOr(Reading(Legacy, raw), DefaultStart);
      var newAngle := RaisedAngle(current);
      // the library's setter would raise on an angle outside 0..180; neither write can
      assert Accepts(Legacy, newAngle) && Accepts(Legacy, current);
      raw := Some(newAngle);
      events := events + [Write(Legacy.channel, newAngle)];
      events := events + [Sleep(RaiseSettleMs)];
      events := events + [Sleep(HoldMs)];
      raw := Some(current);
      events := events + [Write(Legacy.channel, current)];
      events := events + [Sleep(RestoreSettleMs)];
    }
  }
}
