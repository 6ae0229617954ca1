/**
 * The servo driver layer of fingerprint_logic.py: angle clamping, the
 * inverted-servo transform, and the log of what reaches the PWM channels.
 *
 * A servo is described by configuration rather than by a subclass: its PWM
 * channel, the largest angle its driver accepts, and whether logical angles
 * are mirrored (`139 - angle`) before they are written.
 */
module Actuators {
  import opened Optional

  /** Largest logical angle of the latch servos, in degrees. */
  const MaxAngle: int := 139

  datatype Servo = Servo(channel: nat, actuationRange: nat, inverted: bool)

  /** The three servos of the door: two latches and the swing arm. */
  const Axon1 := Servo(5, 139, true)    // an InvertedServo
  const Axon2 := Servo(1, 139, false)   // a plain Servo
  const Swing := Servo(14, 180, false)  // kit.servo[14], default actuation range

  /** Something the actuator layer does, in the order it does it. */
  datatype Event = Write(channel: nat, raw: int) | Sleep(ms: nat)

  /** `clamp`: the angle forced into [0, MaxAngle]. */
  function Clamp(angle: int): (r: int)
    ensures 0 <= r <= MaxAngle
    ensures 0 <= angle <= MaxAngle ==> r == angle
    ensures angle < 0 ==> r == 0
    ensures angle > MaxAngle ==> r == MaxAngle
  {
    var upper := if angle < MaxAngle then angle else MaxAngle;
    if 0 < upper then upper else 0
  }

  /** The raw angle the `angle` setter writes to the channel for a logical angle. */
  function CommandedRaw(s: Servo, angle: int): (raw: int)
    ensures s.inverted ==> 0 <= raw <= MaxAngle && raw + Clamp(angle) == MaxAngle
    ensures !s.inverted ==> raw == angle
  {
    if s.inverted then MaxAngle - Clamp(angle) else angle
  }

  /** The driver refuses (raises) a raw angle outside [0, actuationRange]. */
  predicate Accepts(s: Servo, angle: int) {
    0 <= CommandedRaw(s, angle) <= s.actuationRange
  }

  /** The `angle` getter: None while the channel was never driven, mirrored for an inverted servo. */
  function Reading(s: Servo, raw: Option<int>): (a: Option<int>)
    ensures a.None? <==> raw.None?
  {
    match raw
    case None => None
    case Some(r) => if s.inverted then Some(MaxAngle - r) else Some(r)
  }

  /** Python's `reading or fallback`: both None and 0 are falsy. */
  function AngleOr(reading: Option<int>, fallback: int): (a: int)
    ensures reading == None || reading == Some(0) ==> a == fallback
    ensures reading.Some? && reading.value != 0 ==> a == reading.value
  {
    match reading
    case None => fallback
    case Some(v) => if v == 0 then fallback else v
  }

  /** Setting an angle and reading it back gives the clamped angle on an
      inverted servo and the angle itself on a plain one. */
  lemma ReadAfterWrite(s: Servo, angle: int)
    requires Accepts(s, angle)
    ensures Reading(s, Some(CommandedRaw(s, angle))) == Some(if s.inverted then Clamp(angle) else angle)
  {
  }

  /** An inverted servo whose driver accepts [0, MaxAngle] accepts every logical angle. */
  lemma InvertedAcceptsAll(s: Servo, angle: int)
    requires s.inverted && s.actuationRange >= MaxAngle
    ensures Accepts(s, angle)
  {
  }

  function Lookup(raw: map<nat, int>, channel: nat): Option<int> {
    if channel in raw then Some(raw[channel]) else None
  }

  /** The effect of one event on the last raw angle held by each channel. */
  function Step(raw: map<nat, int>, e: Event): map<nat, int> {
    match e
    case Write(c, v) => raw[c := v]
    case Sleep(_) => raw
  }

  /** The raw angle each channel holds after the events, starting from `raw`. */
  function Replay(raw: map<nat, int>, es: seq<Event>): map<nat, int>
    decreases |es|
  {
    if es == [] then raw else Replay(Step(raw, es[0]), es[1..])
  }

  lemma {:induction false} ReplayConcat(raw: map<nat, int>, a: seq<Event>, b: seq<Event>)
    ensures Replay(raw, a + b) == Replay(Replay(raw, a), b)
    decreases |a|
  {
    if a == [] {
      assert a + b == b;
    } else {
      assert (a + b)[0] == a[0];
      assert (a + b)[1..] == a[1..] + b;
      ReplayConcat(Step(raw, a[0]), a[1..], b);
    }
  }

  /** The raw angles written to one channel, in order. */
  function Writes(es: seq<Event>, channel: nat): seq<int>
    decreases |es|
  {
    if es == [] then []
    else (if es[0].Write? && es[0].channel == channel then [es[0].raw] else []) + Writes(es[1..], channel)
  }

  lemma {:induction false} WritesConcat(a: seq<Event>, b: seq<Event>, channel: nat)
    ensures Writes(a + b, channel) == Writes(a, channel) + Writes(b, channel)
    decreases |a|
  {
    if a == [] {
      assert a + b == b;
    } else {
      assert (a + b)[0] == a[0];
      assert (a + b)[1..] == a[1..] + b;
      WritesConcat(a[1..], b, channel);
    }
  }

  lemma WritesCons(e: Event, rest: seq<Event>, channel: nat)
    ensures Writes([e] + rest, channel)
         == (if e.Write? && e.channel == channel then [e.raw] else []) + Writes(rest, channel)
  {
    assert ([e] + rest)[1..] == rest;
  }

  lemma ReplayCons(raw: map<nat, int>, e: Event, rest: seq<Event>)
    ensures Replay(raw, [e] + rest) == Replay(Step(raw, e), rest)
  {
    assert ([e] + rest)[1..] == rest;
  }
}
