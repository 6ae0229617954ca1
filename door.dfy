/**
 * The door sequencer of fingerprint_logic.py: the module-level `door_state`
 * flag, the three servos it drives, and the open/close choreographies.
 *
 * `raw` holds the raw angle last written to each PWM channel (a channel that
 * was never written reads as None). `events` is the ordered record of every
 * write and every pause. Each entry point's contract states both the events
 * it appends and the raw angles it leaves, and the `*Effect` lemmas show that
 * replaying those events gives exactly those raw angles.
 */
module DoorSequencer {
  import opened Optional
  import opened Actuators
  import opened Motion

  const SwingStep := 2
  const SwingDelayMs := 20
  const SwingOpenAngle := 120
  const LatchSettleMs := 3000
  const SwingSettleMs := 1000
  const ResetSettleMs := 2000
  const CycleSettleMs := 2000

  const OpenedMessage := "Door unlocked and opened."
  const AlreadyOpenMessage := "Door is already open."
  const ClosedMessage := "Door closed and locked."
  const AlreadyClosedMessage := "Door is already closed."
  const AccessDeniedMessage := "Access denied"

  /** The three servos the sequencer drives, by their names in the source. */
  datatype DoorServo = Axon1Servo | Axon2Servo | SwingServo

  function Config(d: DoorServo): (s: Servo)
    ensures s.actuationRange == (if d == SwingServo then 180 else MaxAngle)
  {
    match d
    case Axon1Servo => Axon1
    case Axon2Servo => Axon2
    case SwingServo => Swing
  }

  /** Both latches commanded to logical angles, then the latch settle pause. */
  function LatchEvents(axon1Angle: int, axon2Angle: int): (es: seq<Event>)
    ensures |es| == 3 && es[2] == Sleep(LatchSettleMs)
  {
    LatchWrites(axon1Angle, axon2Angle) + [Sleep(LatchSettleMs)]
  }

  /** The events of the open choreography: unlock both latches, settle,
      sweep the swing arm out, settle. */
  function OpenChoreography(): (es: seq<Event>)
    ensures |es| == 126
  {
    OpeningSwingSweep();
    LatchEvents(90, 0)
    + SweepEvents(Swing, SmoothAngles(0, SwingOpenAngle, SwingStep), SwingDelayMs)
    + [Sleep(SwingSettleMs)]
  }

  /** The events of the close choreography: sweep the swing arm back, settle,
      lock both latches, settle. */
  function CloseChoreography(): (es: seq<Event>)
    ensures |es| == 126
  {
    ClosingSwingSweep();
    SweepEvents(Swing, SmoothAngles(SwingOpenAngle, 0, SwingStep), SwingDelayMs)
    + [Sleep(SwingSettleMs)]
    + LatchEvents(0, 90)
  }

  /** The events of `initialize_positions`. */
  function ResetEvents(): (es: seq<Event>)
    ensures |es| == 4 && es[3] == Sleep(ResetSettleMs)
  {
    [Write(Axon1.channel, CommandedRaw(Axon1, 0)),
     Write(Axon2.channel, CommandedRaw(Axon2, 90)),
     Write(Swing.channel, CommandedRaw(Swing, 0)),
     Sleep(ResetSettleMs)]
  }

  predicate IsLatchWrite(e: Event) {
    e.Write? && (e.channel == Axon1.channel || e.channel == Axon2.channel)
  }

  predicate IsSwingWrite(e: Event) {
    e.Write? && e.channel == Swing.channel
  }

  /** The first `k` events move no swing arm and the rest move no latch. */
  predicate LatchesThenSwing(es: seq<Event>, k: nat) {
    && k <= |es|
    && (forall i :: 0 <= i < k ==> !IsSwingWrite(es[i]))
    && (forall i :: k <= i < |es| ==> !IsLatchWrite(es[i]))
  }

  /** The first `k` events move no latch and the rest move no swing arm. */
  predicate SwingThenLatches(es: seq<Event>, k: nat) {
    && k <= |es|
    && (forall i :: 0 <= i < k ==> !IsLatchWrite(es[i]))
    && (forall i :: k <= i < |es| ==> !IsSwingWrite(es[i]))
  }

  lemma LatchEventsEffect(axon1Angle: int, axon2Angle: int, raw: map<nat, int>, channel: nat)
    ensures Writes(LatchEvents(axon1Angle, axon2Angle), channel)
         == if channel == Axon1.channel then [CommandedRaw(Axon1, axon1Angle)]
            else if channel == Axon2.channel then [CommandedRaw(Axon2, axon2Angle)]
            else []
    ensures Replay(raw, LatchEvents(axon1Angle, axon2Angle))
         == raw[Axon1.channel := CommandedRaw(Axon1, axon1Angle)][Axon2.channel := CommandedRaw(Axon2, axon2Angle)]
    ensures forall e :: e in LatchEvents(axon1Angle, axon2Angle) ==> !IsSwingWrite(e)
  {
    var w := LatchWrites(axon1Angle, axon2Angle);
    var pause := [Sleep(LatchSettleMs)];
    LatchWritesEffect(axon1Angle, axon2Angle, channel);
    WritesConcat(w, pause, channel);
    PauseEffect(LatchSettleMs, Replay(raw, w), channel);
    ReplayConcat(raw, w, pause);
    assert w == [w[0]] + ([w[1]] + []);
    ReplayCons(raw, w[0], [w[1]] + []);
    ReplayCons(Step(raw, w[0]), w[1], []);
  }

  lemma PauseEffect(ms: nat, raw: map<nat, int>, channel: nat)
    ensures Writes([Sleep(ms)], channel) == []
    ensures Replay(raw, [Sleep(ms)]) == raw
  {
    WritesCons(Sleep(ms), [], channel);
    ReplayCons(raw, Sleep(ms), []);
  }

  lemma {:induction false} SweepOnlyMovesSwing(angles: seq<int>, delayMs: nat)
    ensures forall e :: e in SweepEvents(Swing, angles, delayMs) ==> !IsLatchWrite(e)
    decreases |angles|
  {
    if angles != [] {
      SweepOnlyMovesSwing(angles[..|angles| - 1], delayMs);
    }
  }

  lemma OpenWritesSplit(channel: nat)
    ensures Writes(OpenChoreography(), channel)
         == Writes(LatchEvents(90, 0), channel)
            + Writes(SweepEvents(Swing, SmoothAngles(0, SwingOpenAngle, SwingStep), SwingDelayMs), channel)
  {
    var head := LatchEvents(90, 0);
    var sweep := SweepEvents(Swing, SmoothAngles(0, SwingOpenAngle, SwingStep), SwingDelayMs);
    WritesConcat(head + sweep, [Sleep(SwingSettleMs)], channel);
    WritesConcat(head, sweep, channel);
    PauseEffect(SwingSettleMs, map[], channel);
  }

  lemma CloseWritesSplit(channel: nat)
    ensures Writes(CloseChoreography(), channel)
         == Writes(SweepEvents(Swing, SmoothAngles(SwingOpenAngle, 0, SwingStep), SwingDelayMs), channel)
            + Writes(LatchEvents(0, 90), channel)
  {
    var sweep := SweepEvents(Swing, SmoothAngles(SwingOpenAngle, 0, SwingStep), SwingDelayMs);
    var mid := [Sleep(SwingSettleMs)];
    WritesConcat(sweep + mid, LatchEvents(0, 90), channel);
    WritesConcat(sweep, mid, channel);
    PauseEffect(SwingSettleMs, map[], channel);
  }

  /** Opening writes latch 1 once with raw 49 (logical 90), latch 2 once with
      0, and the swing arm 61 times, through 0, 2, ..., 120. */
  lemma OpenChoreographyWrites()
    ensures Writes(OpenChoreography(), Axon1.channel) == [49]
    ensures Writes(OpenChoreography(), Axon2.channel) == [0]
    ensures Writes(OpenChoreography(), Swing.channel) == SmoothAngles(0, 120, 2)
    ensures |Writes(OpenChoreography(), Swing.channel)| == 61
  {
    var angles := SmoothAngles(0, SwingOpenAngle, SwingStep);
    OpenWritesSplit(Axon1.channel);
    OpenWritesSplit(Axon2.channel);
    OpenWritesSplit(Swing.channel);
    LatchEventsEffect(90, 0, map[], Axon1.channel);
    LatchEventsEffect(90, 0, map[], Axon2.channel);
    LatchEventsEffect(90, 0, map[], Swing.channel);
    SweepWrites(Swing, angles, SwingDelayMs, Axon1.channel);
    SweepWrites(Swing, angles, SwingDelayMs, Axon2.channel);
    SweepWrites(Swing, angles, SwingDelayMs, Swing.channel);
    OpeningSwingSweep();
  }

  /** Opening commands both latches before the swing arm moves: the first
      three events (two latch writes and the settle pause) move no swing arm,
      and no latch is written after them. */
  lemma OpenChoreographyOrder()
    ensures LatchesThenSwing(OpenChoreography(), 3)
  {
    var head := LatchEvents(90, 0);
    var angles := SmoothAngles(0, SwingOpenAngle, SwingStep);
    var sweep := SweepEvents(Swing, angles, SwingDelayMs);
    var rest := sweep + [Sleep(SwingSettleMs)];
    LatchEventsEffect(90, 0, map[], 0);
    SweepOnlyMovesSwing(angles, SwingDelayMs);
    assert forall e :: e in rest ==> e in sweep || e == Sleep(SwingSettleMs);
    assert OpenChoreography() == head + rest;
    LatchPartThenSwingPart(head, rest);
  }

  /** Events that write no swing arm followed by events that write no latch. */
  lemma LatchPartThenSwingPart(a: seq<Event>, b: seq<Event>)
    requires forall e :: e in a ==> !IsSwingWrite(e)
    requires forall e :: e in b ==> !IsLatchWrite(e)
    ensures LatchesThenSwing(a + b, |a|)
  {
    forall i | 0 <= i < |a|
      ensures !IsSwingWrite((a + b)[i])
    {
      assert (a + b)[i] == a[i];
    }
    forall i | |a| <= i < |a + b|
      ensures !IsLatchWrite((a + b)[i])
    {
      assert (a + b)[i] == b[i - |a|];
    }
  }

  /** Closing writes the swing arm through 120, 118, ..., 0 (the opening
      sweep reversed), then latch 1 once with raw 139 (logical 0) and latch 2
      once with 90. */
  lemma CloseChoreographyWrites()
    ensures Writes(CloseChoreography(), Axon1.channel) == [139]
    ensures Writes(CloseChoreography(), Axon2.channel) == [90]
    ensures Writes(CloseChoreography(), Swing.channel) == Reverse(Writes(OpenChoreography(), Swing.channel))
  {
    CloseLatchWrites(Axon1.channel);
    CloseLatchWrites(Axon2.channel);
    CloseSwingWrites();
    OpenChoreographyWrites();
    ClosingSwingSweep();
  }

  lemma CloseLatchWrites(channel: nat)
    requires channel == Axon1.channel || channel == Axon2.channel
    ensures Writes(CloseChoreography(), channel) == if channel == Axon1.channel then [139] else [90]
  {
    var angles := SmoothAngles(SwingOpenAngle, 0, SwingStep);
    CloseWritesSplit(channel);
    LatchEventsEffect(0, 90, map[], channel);
    SweepWrites(Swing, angles, SwingDelayMs, channel);
  }

  lemma CloseSwingWrites()
    ensures Writes(CloseChoreography(), Swing.channel) == SmoothAngles(SwingOpenAngle, 0, SwingStep)
  {
    var angles := SmoothAngles(SwingOpenAngle, 0, SwingStep);
    CloseWritesSplit(Swing.channel);
    LatchEventsEffect(0, 90, map[], Swing.channel);
    SweepWrites(Swing, angles, SwingDelayMs, Swing.channel);
  }

  /** Closing moves the swing arm home before either latch is commanded: the
      first 123 events (61 sweep steps with their delays and the settle pause)
      write no latch, and the swing arm is not written after them. */
  lemma CloseChoreographyOrder()
    ensures SwingThenLatches(CloseChoreography(), 123)
  {
    var angles := SmoothAngles(SwingOpenAngle, 0, SwingStep);
    var sweep := SweepEvents(Swing, angles, SwingDelayMs);
    var head := sweep + [Sleep(SwingSettleMs)];
    ClosingSwingSweep();
    LatchEventsEffect(0, 90, map[], 0);
    SweepOnlyMovesSwing(angles, SwingDelayMs);
    assert forall e :: e in head ==> e in sweep || e == Sleep(SwingSettleMs);
    SwingPartThenLatchPart(head, LatchEvents(0, 90));
  }

  /** Events that write no latch followed by events that write no swing arm. */
  lemma SwingPartThenLatchPart(a: seq<Event>, b: seq<Event>)
    requires forall e :: e in a ==> !IsLatchWrite(e)
    requires forall e :: e in b ==> !IsSwingWrite(e)
    ensures SwingThenLatches(a + b, |a|)
  {
    forall i | 0 <= i < |a|
      ensures !IsLatchWrite((a + b)[i])
    {
      assert (a + b)[i] == a[i];
    }
    forall i | |a| <= i < |a + b|
      ensures !IsSwingWrite((a + b)[i])
    {
      assert (a + b)[i] == b[i - |a|];
    }
  }

  /** What the open choreography leaves on the channels. */
  lemma OpenEffect(raw: map<nat, int>)
    ensures Replay(raw, OpenChoreography()) == raw[Axon1.channel := 49][Axon2.channel := 0][Swing.channel := 120]
  {
    var head := LatchEvents(90, 0);
    var angles := SmoothAngles(0, SwingOpenAngle, SwingStep);
    var up := SweepEvents(Swing, angles, SwingDelayMs);
    ReplayConcat(raw, head + up, [Sleep(SwingSettleMs)]);
    ReplayConcat(raw, head, up);
    LatchEventsEffect(90, 0, raw, 0);
    OpeningSwingSweep();
    SweepReplay(Replay(raw, head), Swing, angles, SwingDelayMs);
    PauseEffect(SwingSettleMs, Replay(raw, head + up), 0);
  }

  /** What the close choreography leaves on the channels. */
  lemma CloseEffect(raw: map<nat, int>)
    ensures Replay(raw, CloseChoreography()) == raw[Swing.channel := 0][Axon1.channel := 139][Axon2.channel := 90]
  {
    var angles := SmoothAngles(SwingOpenAngle, 0, SwingStep);
    var down := SweepEvents(Swing, angles, SwingDelayMs);
    var mid := [Sleep(SwingSettleMs)];
    ReplayConcat(raw, down + mid, LatchEvents(0, 90));
    ReplayConcat(raw, down, mid);
    ClosingSwingSweep();
    SweepReplay(raw, Swing, angles, SwingDelayMs);
    PauseEffect(SwingSettleMs, Replay(raw, down), 0);
    LatchEventsEffect(0, 90, Replay(raw, down + mid), 0);
  }

  /** What `initialize_positions` leaves on the channels. */
  lemma ResetEffect(raw: map<nat, int>)
    ensures Replay(raw, ResetEvents()) == raw[Axon1.channel := 139][Axon2.channel := 90][Swing.channel := 0]
  {
    var rs := ResetEvents();
    assert rs == [rs[0]] + ([rs[1]] + ([rs[2]] + ([rs[3]] + [])));
    ReplayCons(raw, rs[0], [rs[1]] + ([rs[2]] + ([rs[3]] + [])));
    ReplayCons(Step(raw, rs[0]), rs[1], [rs[2]] + ([rs[3]] + []));
    ReplayCons(Step(Step(raw, rs[0]), rs[1]), rs[2], [rs[3]] + []);
    ReplayCons(Step(Step(Step(raw, rs[0]), rs[1]), rs[2]), rs[3], []);
  }

  /** Opening and then closing leaves every channel exactly where
      `initialize_positions` puts it, whatever the channels held before. */
  lemma OpenThenCloseResets(raw: map<nat, int>)
    ensures Replay(raw, OpenChoreography() + CloseChoreography()) == Replay(raw, ResetEvents())
  {
    ReplayConcat(raw, OpenChoreography(), CloseChoreography());
    OpenEffect(raw);
    CloseEffect(Replay(raw, OpenChoreography()));
    ResetEffect(raw);
  }

  /** The starting logical angle `move_axon_servos_90_and_back` takes for a
      latch: its reading, with None and 0 both read as 0, clamped. */
  function AxonStart(s: Servo, raw: map<nat, int>): (a: int)
    ensures 0 <= a <= MaxAngle
    ensures var r := Reading(s, Lookup(raw, s.channel));
      r.None? || r == Some(0) ==> a == 0
    ensures var r := Reading(s, Lookup(raw, s.channel));
      r.Some? && 0 <= r.value <= MaxAngle ==> a == r.value
  {
    Clamp(AngleOr(Reading(s, Lookup(raw, s.channel)), 0))
  }

  /** Every angle of either swing sweep is one the swing servo accepts; the
      opening sweep ends at the open angle and the closing sweep at 0. */
  lemma SwingSweepsAccepted()
    ensures forall a :: a in SmoothAngles(0, SwingOpenAngle, SwingStep) ==> Accepts(Swing, a)
    ensures forall a :: a in SmoothAngles(SwingOpenAngle, 0, SwingStep) ==> Accepts(Swing, a)
    ensures var r := SmoothAngles(0, SwingOpenAngle, SwingStep); |r| == 61 && r[60] == SwingOpenAngle
    ensures var r := SmoothAngles(SwingOpenAngle, 0, SwingStep); |r| == 61 && r[60] == 0
  {
    AscendingSweep(0, SwingOpenAngle, SwingStep);
    DescendingSweep(SwingOpenAngle, 0, SwingStep);
    OpeningSwingSweep();
    ClosingSwingSweep();
  }

  /** A latch's starting angle, as `move_axon_servos_90_and_back` reads it,
      and its target 90 degrees lower are both accepted, and writing the
      starting angle back restores the raw value the channel held (or the
      raw value of logical 0 when the channel was never driven). */
  lemma LatchRestore(s: Servo, raw: map<nat, int>)
    requires s == Axon1 || s == Axon2
    requires s.channel in raw ==> 0 <= raw[s.channel] <= MaxAngle
    ensures Accepts(s, AxonStart(s, raw)) && Accepts(s, Clamp(AxonStart(s, raw) - 90))
    ensures CommandedRaw(s, AxonStart(s, raw))
         == if s.channel in raw then raw[s.channel] else CommandedRaw(s, 0)
  {
  }

  /** Both latches commanded to logical angles, with no pause. */
  function LatchWrites(axon1Angle: int, axon2Angle: int): (es: seq<Event>)
    ensures |es| == 2
  {
    [Write(Axon1.channel, CommandedRaw(Axon1, axon1Angle)),
     Write(Axon2.channel, CommandedRaw(Axon2, axon2Angle))]
  }

  /** The swing arm's part of `move_axon_servos_90_and_back`: settle, sweep
      out, settle, sweep back, settle. */
  function SwingCycleEvents(): (es: seq<Event>)
    ensures |es| == 247
  {
    OpeningSwingSweep();
    ClosingSwingSweep();
    [Sleep(CycleSettleMs)]
    + SweepEvents(Swing, SmoothAngles(0, SwingOpenAngle, SwingStep), SwingDelayMs)
    + [Sleep(CycleSettleMs)]
    + SweepEvents(Swing, SmoothAngles(SwingOpenAngle, 0, SwingStep), SwingDelayMs)
    + [Sleep(CycleSettleMs)]
  }

  /** The events of `move_axon_servos_90_and_back` for the given starting angles. */
  function AxonCycleEvents(axon1Start: int, axon2Start: int): (es: seq<Event>)
    ensures |es| == 251
  {
    LatchWrites(Clamp(axon1Start - 90), Clamp(axon2Start - 90))
    + SwingCycleEvents()
    + LatchWrites(axon1Start, axon2Start)
  }

  lemma LatchWritesEffect(axon1Angle: int, axon2Angle: int, channel: nat)
    ensures Writes(LatchWrites(axon1Angle, axon2Angle), channel)
         == if channel == Axon1.channel then [CommandedRaw(Axon1, axon1Angle)]
            else if channel == Axon2.channel then [CommandedRaw(Axon2, axon2Angle)]
            else []
  {
    var es := LatchWrites(axon1Angle, axon2Angle);
    assert es == [es[0]] + ([es[1]] + []);
    WritesCons(es[0], [es[1]] + [], channel);
    WritesCons(es[1], [], channel);
  }

  /** A settle, a sweep, a settle, a sweep and a settle on the swing arm
      write the swing channel with the two sweeps' angles and nothing else. */
  lemma {:induction false} PausedSweepsWrites(out: seq<int>, back: seq<int>, channel: nat)
    ensures Writes([Sleep(CycleSettleMs)] + SweepEvents(Swing, out, SwingDelayMs) + [Sleep(CycleSettleMs)]
                   + SweepEvents(Swing, back, SwingDelayMs) + [Sleep(CycleSettleMs)], channel)
         == if channel == Swing.channel then out + back else []
  {
    var pause := [Sleep(CycleSettleMs)];
    var up := SweepEvents(Swing, out, SwingDelayMs);
    var down := SweepEvents(Swing, back, SwingDelayMs);
    WritesConcat(pause + up + pause + down, pause, channel);
    WritesConcat(pause + up + pause, down, channel);
    WritesConcat(pause + up, pause, channel);
    WritesConcat(pause, up, channel);
    PauseEffect(CycleSettleMs, map[], channel);
    SweepWrites(Swing, out, SwingDelayMs, channel);
    SweepWrites(Swing, back, SwingDelayMs, channel);
  }

  lemma SwingCycleWrites(channel: nat)
    ensures Writes(SwingCycleEvents(), channel)
         == if channel == Swing.channel
            then SmoothAngles(0, SwingOpenAngle, SwingStep) + SmoothAngles(SwingOpenAngle, 0, SwingStep)
            else []
  {
    PausedSweepsWrites(SmoothAngles(0, SwingOpenAngle, SwingStep), SmoothAngles(SwingOpenAngle, 0, SwingStep), channel);
  }

  lemma AxonCycleSplit(axon1Start: int, axon2Start: int, channel: nat)
    ensures Writes(AxonCycleEvents(axon1Start, axon2Start), channel)
         == Writes(LatchWrites(Clamp(axon1Start - 90), Clamp(axon2Start - 90)), channel)
            + Writes(SwingCycleEvents(), channel)
            + Writes(LatchWrites(axon1Start, axon2Start), channel)
  {
    var down := LatchWrites(Clamp(axon1Start - 90), Clamp(axon2Start - 90));
    var back := LatchWrites(axon1Start, axon2Start);
    WritesConcat(down + SwingCycleEvents(), back, channel);
    WritesConcat(down, SwingCycleEvents(), channel);
  }

  /** `move_axon_servos_90_and_back` writes each latch exactly twice, first
      90 degrees toward 0 and then back to its start, and writes the swing
      arm through the opening sweep followed by the closing sweep. */
  lemma AxonCycleWrites(axon1Start: int, axon2Start: int)
    ensures Writes(AxonCycleEvents(axon1Start, axon2Start), Axon1.channel)
         == [CommandedRaw(Axon1, Clamp(axon1Start - 90)), CommandedRaw(Axon1, axon1Start)]
    ensures Writes(AxonCycleEvents(axon1Start, axon2Start), Axon2.channel)
         == [CommandedRaw(Axon2, Clamp(axon2Start - 90)), CommandedRaw(Axon2, axon2Start)]
    ensures Writes(AxonCycleEvents(axon1Start, axon2Start), Swing.channel)
         == SmoothAngles(0, SwingOpenAngle, SwingStep) + SmoothAngles(SwingOpenAngle, 0, SwingStep)
  {
    AxonCycleChannelWrites(axon1Start, axon2Start, Axon1.channel);
    AxonCycleChannelWrites(axon1Start, axon2Start, Axon2.channel);
    AxonCycleChannelWrites(axon1Start, axon2Start, Swing.channel);
  }

  lemma AxonCycleChannelWrites(axon1Start: int, axon2Start: int, channel: nat)
    ensures Writes(AxonCycleEvents(axon1Start, axon2Start), channel)
         == (if channel == Axon1.channel then [CommandedRaw(Axon1, Clamp(axon1Start - 90))]
             else if channel == Axon2.channel then [CommandedRaw(Axon2, Clamp(axon2Start - 90))]
             else [])
            + (if channel == Swing.channel
               then SmoothAngles(0, SwingOpenAngle, SwingStep) + SmoothAngles(SwingOpenAngle, 0, SwingStep)
               else [])
            + (if channel == Axon1.channel then [CommandedRaw(Axon1, axon1Start)]
               else if channel == Axon2.channel then [CommandedRaw(Axon2, axon2Start)]
               else [])
  {
    AxonCycleSplit(axon1Start, axon2Start, channel);
    LatchWritesEffect(Clamp(axon1Start - 90), Clamp(axon2Start - 90), channel);
    LatchWritesEffect(axon1Start, axon2Start, channel);
    SwingCycleWrites(channel);
  }

  /** What the writes of the axon cycle leave on the channels: the latches
      at their second values, the swing arm at 0, every other channel as it was. */
  lemma CycleLeaves(raw: map<nat, int>, down1: int, down2: int, back1: int, back2: int)
    ensures var after := raw[Axon1.channel := down1][Axon2.channel := down2][Swing.channel := 0]
                           [Axon1.channel := back1][Axon2.channel := back2];
      && Lookup(after, Axon1.channel) == Some(back1)
      && Lookup(after, Axon2.channel) == Some(back2)
      && Lookup(after, Swing.channel) == Some(0)
      && forall c :: c != Axon1.channel && c != Axon2.channel && c != Swing.channel
           ==> Lookup(after, c) == Lookup(raw, c)
  {
  }

  lemma AppendThree(log: seq<Event>, a: seq<Event>, b: seq<Event>, c: seq<Event>)
    ensures log + a + b + c == log + (a + b + c)
  {
  }

  lemma Overwrite(raw: map<nat, int>, channel: nat, first: int, second: int)
    ensures raw[channel := first][channel := second] == raw[channel := second]
  {
  }

  lemma AppendFive(log: seq<Event>, a: seq<Event>, b: seq<Event>, c: seq<Event>, d: seq<Event>, e: seq<Event>)
    ensures log + a + b + c + d + e == log + (a + b + c + d + e)
  {
    AppendThree(log, a, b, c);
    AppendThree(log, a + b + c, d, e);
  }

  /** The logical angle servo `s` reports when the channels hold `raw`. */
  function AngleIn(raw: map<nat, int>, s: Servo): Option<int> {
    Reading(s, Lookup(raw, s.channel))
  }

  /** Where `initialize_positions` leaves the servos: both latches locked,
      swing arm home. */
  predicate RestPose(raw: map<nat, int>) {
    AngleIn(raw, Axon1) == Some(0) && AngleIn(raw, Axon2) == Some(90) && AngleIn(raw, Swing) == Some(0)
  }

  /** Where opening leaves the servos: both latches unlocked, swing arm out. */
  predicate OpenPose(raw: map<nat, int>) {
    AngleIn(raw, Axon1) == Some(90) && AngleIn(raw, Axon2) == Some(0)
    && AngleIn(raw, Swing) == Some(SwingOpenAngle)
  }

  /** The raw values the reset, the close and the open choreographies leave
      behind are the rest pose (twice) and the open pose. */
  lemma PosesReached(raw: map<nat, int>)
    ensures RestPose(raw[Axon1.channel := 139][Axon2.channel := 90][Swing.channel := 0])
    ensures RestPose(raw[Swing.channel := 0][Axon1.channel := 139][Axon2.channel := 90])
    ensures OpenPose(raw[Axon1.channel := 49][Axon2.channel := 0][Swing.channel := 120])
  {
  }

  /** The three servos of fingerprint_logic.py together with `door_state`. */
  class Door {
    var isOpen: bool
    var raw: map<nat, int>
    ghost var events: seq<Event>

    /** Each latch channel holds a raw angle its setter can produce. */
    ghost predicate Valid()
      reads this
    {
      && (Axon1.channel in raw ==> 0 <= raw[Axon1.channel] <= MaxAngle)
      && (Axon2.channel in raw ==> 0 <= raw[Axon2.channel] <= MaxAngle)
    }

    /** The logical angle a servo reports. */
    function Angle(s: Servo): Option<int>
      reads this
    {
      AngleIn(raw, s)
    }

    /** The servos are where `initialize_positions` leaves them. */
    ghost predicate AtRest()
      reads this
    {
      RestPose(raw)
    }

    /** The servos are where opening leaves them. */
    ghost predicate Opened()
      reads this
    {
      OpenPose(raw)
    }

    /** The process starts with the door taken to be closed and no channel driven. */
    constructor ()
      ensures Valid() && !isOpen && raw == map[] && events == []
    {
      isOpen := false;
      raw := map[];
      events := [];
    }

    /** The `angle` setter of one of the door's servos. */
    method SetAngle(d: DoorServo, angle: int)
      requires Valid() && Accepts(Config(d), angle)
      modifies this
      ensures Valid() && isOpen == old(isOpen)
      ensures raw == old(raw)[Config(d).channel := CommandedRaw(Config(d), angle)]
      ensures events == old(events) + [Write(Config(d).channel, CommandedRaw(Config(d), angle))]
    {
      var s := Config(d);
      var e := Write(s.channel, CommandedRaw(s, angle));
      raw := raw[s.channel := CommandedRaw(s, angle)];
      events := events + [e];
    }

    /** `time.sleep`: no servo changes. */
    method Pause(ms: nat)
      requires Valid()
      modifies this
      ensures Valid() && isOpen == old(isOpen) && raw == old(raw)
      ensures events == old(events) + [Sleep(ms)]
    {
      events := events + [Sleep(ms)];
    }

    /** `smooth_servo_move`: one write and one delay per angle of the sweep;
        the servo is left at the sweep's last angle. */
    method SmoothServoMove(d: DoorServo, start: int, end: int, step: int, delayMs: nat)
      requires Valid() && step != 0
      requires forall a :: a in SmoothAngles(start, end, step) ==> Accepts(Config(d), a)
      modifies this
      ensures Valid() && isOpen == old(isOpen)
      ensures events == old(events) + SweepEvents(Config(d), SmoothAngles(start, end, step), delayMs)
      ensures var angles := SmoothAngles(start, end, step);
        raw == if angles == [] then old(raw)
               else old(raw)[Config(d).channel := CommandedRaw(Config(d), angles[|angles| - 1])]
    {
      var angles := SmoothAngles(start, end, step);
      StepThrough(d, angles, delayMs);
    }

    /** The `for` loop of `smooth_servo_move`: set each angle, then wait. */
    method StepThrough(d: DoorServo, angles: seq<int>, delayMs: nat)
      requires Valid()
      requires forall a :: a in angles ==> Accepts(Config(d), a)
      modifies this
      ensures Valid() && isOpen == old(isOpen)
      ensures events == old(events) + SweepEvents(Config(d), angles, delayMs)
      ensures raw == if angles == [] then old(raw)
                     else old(raw)[Config(d).channel := CommandedRaw(Config(d), angles[|angles| - 1])]
    {
      var s := Config(d);
      for i := 0 to |angles|
        invariant Valid() && isOpen == old(isOpen)
        invariant events == old(events) + SweepEvents(s, angles[..i], delayMs)
        invariant raw == if i == 0 then old(raw) else old(raw)[s.channel := CommandedRaw(s, angles[i - 1])]
      {
        assert angles[i] in angles;
        SetAngle(d, angles[i]);
        Pause(delayMs);
        SweepEventsSnoc(s, angles[..i], angles[i], delayMs);
        assert angles[..i + 1] == angles[..i] + [angles[i]];
      }
      assert angles[..|angles|] == angles;
    }

    /** The swing arm's opening sweep, 0 to the open angle. */
    method SwingOut()
      requires Valid()
      modifies this
      ensures Valid() && isOpen == old(isOpen)
      ensures events == old(events) + SweepEvents(Swing, SmoothAngles(0, SwingOpenAngle, SwingStep), SwingDelayMs)
      ensures raw == old(raw)[Swing.channel := SwingOpenAngle]
    {
      SwingSweepsAccepted();
      SmoothServoMove(SwingServo, 0, SwingOpenAngle, SwingStep, SwingDelayMs);
    }

    /** The swing arm's closing sweep, the open angle back to 0. */
    method SwingBack()
      requires Valid()
      modifies this
      ensures Valid() && isOpen == old(isOpen)
      ensures events == old(events) + SweepEvents(Swing, SmoothAngles(SwingOpenAngle, 0, SwingStep), SwingDelayMs)
      ensures raw == old(raw)[Swing.channel := 0]
    {
      SwingSweepsAccepted();
      SmoothServoMove(SwingServo, SwingOpenAngle, 0, SwingStep, SwingDelayMs);
    }

    /** Both latch setters, one after the other. */
    method MoveLatches(axon1Angle: int, axon2Angle: int)
      requires Valid() && Accepts(Axon1, axon1Angle) && Accepts(Axon2, axon2Angle)
      modifies this
      ensures Valid() && isOpen == old(isOpen)
      ensures events == old(events) + LatchWrites(axon1Angle, axon2Angle)
      ensures raw == old(raw)[Axon1.channel := CommandedRaw(Axon1, axon1Angle)]
                             [Axon2.channel := CommandedRaw(Axon2, axon2Angle)]
    {
      SetAngle(Axon1Servo, axon1Angle);
      SetAngle(Axon2Servo, axon2Angle);
    }

    /** The swing arm's part of `move_axon_servos_90_and_back`. */
    method SwingCycle()
      requires Valid()
      modifies this
      ensures Valid() && isOpen == old(isOpen)
      ensures events == old(events) + SwingCycleEvents()
      ensures raw == old(raw)[Swing.channel := 0]
    {
      ghost var before := events;
      Overwrite(raw, Swing.channel, SwingOpenAngle, 0);
      Pause(CycleSettleMs);
      SwingOut();
      Pause(CycleSettleMs);
      SwingBack();
      Pause(CycleSettleMs);
      AppendFive(before, [Sleep(CycleSettleMs)],
        SweepEvents(Swing, SmoothAngles(0, SwingOpenAngle, SwingStep), SwingDelayMs), [Sleep(CycleSettleMs)],
        SweepEvents(Swing, SmoothAngles(SwingOpenAngle, 0, SwingStep), SwingDelayMs), [Sleep(CycleSettleMs)]);
    }

    /** `initialize_positions`: both latches locked, swing arm home. */
    method InitializePositions()
      requires Valid()
      modifies this
      ensures Valid() && isOpen == old(isOpen)
      ensures events == old(events) + ResetEvents()
      ensures raw == old(raw)[Axon1.channel := 139][Axon2.channel := 90][Swing.channel := 0]
      ensures AtRest()
    {
      PosesReached(raw);
      SetAngle(Axon1Servo, 0);
      SetAngle(Axon2Servo, 90);
      SetAngle(SwingServo, 0);
      Pause(ResetSettleMs);
    }

    /** `open_door_if_closed`: refused without touching any servo when the
        door is already open; otherwise unlock, swing out, then mark it open. */
    method OpenDoorIfClosed() returns (success: bool, message: string)
      requires Valid()
      modifies this
      ensures Valid() && isOpen
      ensures success == !old(isOpen)
      ensures message == if success then OpenedMessage else AlreadyOpenMessage
      ensures !success ==> raw == old(raw) && events == old(events)
      ensures success ==> events == old(events) + OpenChoreography()
      ensures success ==> raw == old(raw)[Axon1.channel := 49][Axon2.channel := 0][Swing.channel := 120]
      ensures success ==> Opened()
    {
      if isOpen {
        return false, AlreadyOpenMessage;
      }
      PosesReached(raw);
      ghost var before := events;
      SetAngle(Axon1Servo, 90);
      SetAngle(Axon2Servo, 0);
      Pause(LatchSettleMs);
      assert events == before + LatchEvents(90, 0);
      SwingOut();
      Pause(SwingSettleMs);
      AppendThree(before, LatchEvents(90, 0),
        SweepEvents(Swing, SmoothAngles(0, SwingOpenAngle, SwingStep), SwingDelayMs), [Sleep(SwingSettleMs)]);
      isOpen := true;
      return true, OpenedMessage;
    }

    /** `close_door_if_open`: refused without touching any servo when the
        door is already closed; otherwise swing home, lock, then mark it closed. */
    method CloseDoorIfOpen() returns (success: bool, message: string)
      requires Valid()
      modifies this
      ensures Valid() && !isOpen
      ensures success == old(isOpen)
      ensures message == if success then ClosedMessage else AlreadyClosedMessage
      ensures !success ==> raw == old(raw) && events == old(events)
      ensures success ==> events == old(events) + CloseChoreography()
      ensures success ==> raw == old(raw)[Swing.channel := 0][Axon1.channel := 139][Axon2.channel := 90]
      ensures success ==> AtRest()
    {
      if !isOpen {
        return false, AlreadyClosedMessage;
      }
      PosesReached(raw);
      ghost var before := events;
      SwingBack();
      Pause(SwingSettleMs);
      ghost var swung := events;
      SetAngle(Axon1Servo, 0);
      SetAngle(Axon2Servo, 90);
      Pause(LatchSettleMs);
      assert events == swung + LatchEvents(0, 90);
      AppendThree(before, SweepEvents(Swing, SmoothAngles(SwingOpenAngle, 0, SwingStep), SwingDelayMs),
        [Sleep(SwingSettleMs)], LatchEvents(0, 90));
      isOpen := false;
      return true, ClosedMessage;
    }

    /** `move_axon_servos_90_and_back`: each latch is driven 90 degrees toward
        0 and later returned to its starting reading (a latch never driven is
        taken to start at 0); the swing arm sweeps out and back and ends at 0
        whatever it held; the door flag is not touched. */
    method MoveAxonServos90AndBack()
      requires Valid()
      modifies this
      ensures Valid() && isOpen == old(isOpen)
      ensures events == old(events) + AxonCycleEvents(AxonStart(Axon1, old(raw)), AxonStart(Axon2, old(raw)))
      ensures Lookup(raw, Axon1.channel)
           == if Axon1.channel in old(raw) then Some(old(raw)[Axon1.channel]) else Some(CommandedRaw(Axon1, 0))
      ensures Lookup(raw, Axon2.channel)
           == if Axon2.channel in old(raw) then Some(old(raw)[Axon2.channel]) else Some(0)
      ensures Angle(Swing) == Some(0)
      ensures forall c :: c != Axon1.channel && c != Axon2.channel && c != Swing.channel
                ==> Lookup(raw, c) == Lookup(old(raw), c)
    {
      var axon1Start := AxonStart(Axon1, raw);
      var axon2Start := AxonStart(Axon2, raw);
      LatchRestore(Axon1, raw);
      LatchRestore(Axon2, raw);
      ghost var before, start := events, raw;
      var axon1Down, axon2Down := Clamp(axon1Start - 90), Clamp(axon2Start - 90);
      MoveLatches(axon1Down, axon2Down);
      SwingCycle();
      ghost var swung: map<nat, int> := raw;
      MoveLatches(axon1Start, axon2Start);
      assert raw == swung[Axon1.channel := CommandedRaw(Axon1, axon1Start)][Axon2.channel := CommandedRaw(Axon2, axon2Start)];
      AppendThree(before, LatchWrites(axon1Down, axon2Down), SwingCycleEvents(), LatchWrites(axon1Start, axon2Start));
      CycleLeaves(start, CommandedRaw(Axon1, axon1Down), CommandedRaw(Axon2, axon2Down),
        CommandedRaw(Axon1, axon1Start), CommandedRaw(Axon2, axon2Start));
    }

    /** The `/validate` route: a matched fingerprint asks the sequencer to
        open; anything else is refused without touching the door. */
    method Validate(fingerprintMatched: bool) returns (success: bool, message: string)
      requires Valid()
      modifies this
      ensures Valid()
      ensures success <==> fingerprintMatched && !old(isOpen)
      ensures !fingerprintMatched ==> message == AccessDeniedMessage
      ensures fingerprintMatched ==> message == if success then OpenedMessage else AlreadyOpenMessage
      ensures !success ==> raw == old(raw) && events == old(events) && isOpen == old(isOpen)
      ensures success ==> isOpen && events == old(events) + OpenChoreography()
      ensures success ==> raw == old(raw)[Axon1.channel := 49][Axon2.channel := 0][Swing.channel := 120]
      ensures success ==> Opened()
    {
      if !fingerprintMatched {
        return false, AccessDeniedMessage;
      }
      success, message := OpenDoorIfClosed();
    }
  }

  /** A caller's view of repeated requests, from the contracts alone: a second
      open is refused and changes nothing, a close then succeeds, and the
      servos end where they would after `initialize_positions`. */
  method RepeatedRequests()
  {
    var door := new Door();
    var ok1, msg1 := door.OpenDoorIfClosed();
    assert ok1 && msg1 == OpenedMessage && door.isOpen;
    var ok2, msg2 := door.OpenDoorIfClosed();
    assert !ok2 && msg2 == AlreadyOpenMessage && door.isOpen;
    var ok3, msg3 := door.CloseDoorIfOpen();
    assert ok3 && msg3 == ClosedMessage && !door.isOpen && door.AtRest();
    var ok4, msg4 := door.CloseDoorIfOpen();
    assert !ok4 && msg4 == AlreadyClosedMessage && door.AtRest();
    assert door.events == OpenChoreography() + CloseChoreography();
  }
}
