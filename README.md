# Secure-Safe door sequencer, PIN store and legacy servo cycle in Dafny

Secure-Safe is a fingerprint-operated safe driven from a single-board computer. Two
latch servos ("axon1" and "axon2") and a swing-arm servo (the GoBILDA servo on
ServoKit channel 14) open and close the door. A single flag, `door_state`,
records whether the door is open. Web log-in uses a six-digit PIN sent by email.

This project models three parts of the program:

- **The actuator layer and door sequencer** (`fingerprint_logic.py`):
  - `clamp`, and the `InvertedServo` angle transform (`139 - angle` on the way
    out and on the way back);
  - the stepped sweep `smooth_servo_move`;
  - the guarded entry points `open_door_if_closed` and `close_door_if_open`;
  - `initialize_positions` and `move_axon_servos_90_and_back`;
  - the enrolment slot rule `next_id`.
- **The PIN store** (`smtp_utils.py`): `generate_pin`, the store update in
  `send_pin_email`, and `verify_pin`, all over the `active_pins` dictionary.
- **The legacy single-servo cycle** (`servo_controller.py`): `open_and_close_servo`.

Files:

- `optional.dfy` (`Optional`): the option type.
- `actuators.dfy` (`Actuators`): servo configuration, clamp, the inverted
  transform, the getter, and the event log with its replay.
- `motion.dfy` (`Motion`): Python's `range` and the sweep angle list.
- `door.dfy` (`DoorSequencer`): the `Door` class (door flag, raw channel
  angles, ghost event log) and lemmas about the choreographies.
- `enrolment.dfy` (`Enrolment`): the `next_id` rule.
- `pins.dfy` (`PinAuth`): PIN generation and the `PinStore` class.
- `servo_controller.dfy` (`ServoController`): the `LegacyServo` class.

How the model is built:

- **Servos.** A servo is data: channel, actuation range, and whether it is
  inverted. `axon1` is the inverted one (channel 5, range 139). `axon2` is a
  plain servo (channel 1, range 139). The swing arm is a plain servo with the
  library's default 180-degree range.
- **Channel state.** Each channel holds the raw angle last written to it. A
  channel never written reads as `None`, as the library getter does for a
  channel with duty cycle 0.
- **Writes and pauses.** Every write and every `time.sleep` is appended to a
  ghost event log, so order and "nothing was written" can be stated.
- **Outside inputs.** The clock, the random draw and the outcome of sending
  mail are parameters.

Three behaviours of the code that are easy to misread:

- A sweep with `start == end` commands that one angle once; it does not issue
  zero commands. The code takes the `else` branch, `range(start, start - 1, -step)`.
- The inverted latch is `axon1` (channel 5). The comment on line 36 calls
  `axon2` inverted, but `axon2` is built as a plain `Servo`.
- Only the inverted servo clamps its angle. The plain servos pass the angle
  through unchanged. The driver rejects an angle outside its range, so the
  model makes that a precondition (`Actuators.Accepts`), and every caller in
  the model meets it.

## Model

| member | source | states |
|---|---|---|
| Actuators.Clamp | fingerprint_logic.py:44-45 | the result always lies in [0, 139]; it is the angle itself when that is already in range, 0 below the range and 139 above it |
| Actuators.CommandedRaw | fingerprint_logic.py:23-27 | an inverted servo writes a raw angle in [0, 139] that sums with the clamped logical angle to 139; a plain servo writes the angle unchanged |
| Actuators.Reading | fingerprint_logic.py:19-22 | the getter yields None exactly when the channel holds no raw value (a None raw value reads back as None) |
| Actuators.AngleOr | fingerprint_logic.py:66-67 | Python's `reading or fallback`: None and 0 both give the fallback, any other reading is kept |
| Actuators.ReadAfterWrite | fingerprint_logic.py:18-27 | setting angle x and reading back gives clamp(x) on the inverted servo and x on a plain one |
| Actuators.InvertedAcceptsAll | fingerprint_logic.py:24-27 | the inverted servo's driver never rejects an angle, because the clamp keeps the raw value in [0, 139] |
| Motion.Range | fingerprint_logic.py:49 | Python `range`: an arithmetic progression from start by step that stays strictly on the near side of stop and ends less than one step before it; empty exactly when start is already at or past stop |
| Motion.SmoothAngles | fingerprint_logic.py:48-55 | the branch of `smooth_servo_move` and its two `range` calls; for a positive step the list is never empty and starts at start; AscendingSweep, DescendingSweep, NegativeStepSweep and SweepReversal state the rest |
| Motion.SweepEvents | fingerprint_logic.py:49-51 | the loop bodies (set the angle, then sleep), one write and one delay per angle, so twice as many events as angles; SweepWrites and SweepReplay state what they write and leave |
| Motion.AscendingSweep | fingerprint_logic.py:48-51 | a rising sweep starts at start, rises by exactly step, every angle is at most end, the last is within one step of end, and end is commanded exactly when step divides end - start |
| Motion.DescendingSweep | fingerprint_logic.py:52-55 | a falling sweep starts at start, falls by exactly step, every angle is at least end, the last is within one step of end; with start == end it is exactly one command |
| Motion.NegativeStepSweep | fingerprint_logic.py:47-55 | a negative step gives no commands in either direction |
| Motion.OpeningSwingSweep | fingerprint_logic.py:208 | the sweep (0, 120, step 2) is exactly 61 commands 0, 2, ..., 120 |
| Motion.SweepReversal | fingerprint_logic.py:47-55 | when step divides the distance, the sweep back from end to start is the exact reverse of the sweep out |
| Motion.ClosingSwingSweep | fingerprint_logic.py:220 | the sweep (120, 0, step 2) is the reverse of the opening sweep |
| Motion.SweepWrites | fingerprint_logic.py:47-55 | a sweep writes only its own servo's channel, and on a plain servo the written values are exactly the sweep's angles |
| Motion.SweepReplay | fingerprint_logic.py:47-55 | after a sweep the servo's channel holds the last angle and every other channel is unchanged |
| DoorSequencer.Door.constructor | fingerprint_logic.py:195 | `door_state = {"open": False}`: the door starts closed. The model also assumes that no PWM channel has been driven yet at start-up (every channel reads None) and that the event log is empty |
| DoorSequencer.Door.SetAngle | fingerprint_logic.py:23-27 | the setter writes the commanded raw angle to the servo's channel, logs the write, and changes nothing else |
| DoorSequencer.Door.Pause | fingerprint_logic.py:62 | `time.sleep`: appends one pause to the log and changes no servo and not the door flag |
| DoorSequencer.Config | fingerprint_logic.py:40-42 | the three servos the sequencer builds: the two latches have a 139-degree actuation range and the swing arm the library's default 180 |
| DoorSequencer.AxonStart | fingerprint_logic.py:66-67 | `clamp(servo.angle or 0)`: always in [0, 139]; 0 when the reading is None or 0; the reading itself when it is already in range |
| DoorSequencer.LatchEvents | fingerprint_logic.py:203-205 | both latch writes followed by the 3 s settle (the same three events lock the latches at lines 224-226); LatchEventsEffect states which channel each write reaches and what the replay leaves |
| DoorSequencer.LatchEventsEffect | fingerprint_logic.py:203-205 | the first write reaches only axon1's channel and the second only axon2's; replaying the three events sets exactly those two channels and writes no swing arm |
| DoorSequencer.SwingSweepsAccepted | fingerprint_logic.py:208 | every angle of the opening sweep and of the closing sweep (line 220) is one the swing servo's driver accepts; each sweep has 61 commands and ends at 120 and at 0 respectively |
| DoorSequencer.Door.SwingOut | fingerprint_logic.py:208 | the swing arm's sweep 0 to 120 in steps of 2 (also line 81): its events are the sweep's, the swing channel ends at 120, and nothing else changes |
| DoorSequencer.Door.SwingBack | fingerprint_logic.py:220 | the swing arm's sweep 120 to 0 in steps of 2 (also line 85): its events are the sweep's, the swing channel ends at 0, and nothing else changes |
| DoorSequencer.Door.MoveLatches | fingerprint_logic.py:75-76 | both latch setters with no pause between (also lines 89-90): logs LatchWrites and sets each latch channel to the commanded raw angle, nothing else |
| DoorSequencer.Door.SwingCycle | fingerprint_logic.py:78-87 | settle, sweep out, settle, sweep back, settle: logs SwingCycleEvents and leaves the swing channel at 0 with the latches and the flag untouched |
| DoorSequencer.Door.SmoothServoMove | fingerprint_logic.py:47-55 | a sweep appends one write and one delay per angle of the sweep, in order, and leaves the servo at the last angle |
| DoorSequencer.Door.StepThrough | fingerprint_logic.py:49-51 | the loop body, set then sleep, applied to each angle in turn |
| DoorSequencer.Door.InitializePositions | fingerprint_logic.py:57-63 | writes axon1 to 0, axon2 to 90 and the swing arm to 0, then pauses 2 s; afterwards the servos read 0, 90 and 0 |
| DoorSequencer.Door.OpenDoorIfClosed | fingerprint_logic.py:197-212 | when the door is already open: returns (false, "Door is already open.") and writes nothing; otherwise unlocks both latches, sweeps the swing arm 0 to 120, then sets the flag and returns (true, "Door unlocked and opened."), with the servos reading 90, 0 and 120 |
| DoorSequencer.Door.CloseDoorIfOpen | fingerprint_logic.py:214-229 | when the door is already closed: returns (false, "Door is already closed.") and writes nothing; otherwise sweeps the swing arm 120 to 0, locks both latches, then clears the flag and returns (true, "Door closed and locked."), with the servos back at the rest pose |
| DoorSequencer.Door.MoveAxonServos90AndBack | fingerprint_logic.py:65-91 | each latch goes 90 degrees toward 0 and is later returned to the raw value it held (a latch never driven counts as 0); the swing arm sweeps out and back and ends at 0; the door flag is untouched |
| DoorSequencer.Door.Validate | app.py:117-123 | a matched fingerprint opens the door through the open entry point, with the same events, raw angles and open pose as OpenDoorIfClosed; an unmatched one returns (false, "Access denied") and changes nothing |
| DoorSequencer.OpenChoreography | fingerprint_logic.py:202-209 | the 126 events of opening; OpenChoreographyWrites, OpenChoreographyOrder and OpenEffect state what they write, in what order, and what they leave |
| DoorSequencer.CloseChoreography | fingerprint_logic.py:219-226 | the 126 events of closing; CloseChoreographyWrites, CloseChoreographyOrder and CloseEffect state what they write, in what order, and what they leave |
| DoorSequencer.ResetEvents | fingerprint_logic.py:59-62 | the four events of `initialize_positions`, ending with the 2 s pause; ResetEffect states what they leave |
| DoorSequencer.LatchWrites | fingerprint_logic.py:75-76 | the two latch writes, axon1 then axon2; LatchWritesEffect states which channel each writes |
| DoorSequencer.SwingCycleEvents | fingerprint_logic.py:78-87 | the 247 events of the swing arm's part of the cycle; SwingCycleWrites states that only the swing channel is written, with the opening sweep then the closing sweep |
| DoorSequencer.AxonCycleEvents | fingerprint_logic.py:75-90 | the 251 events of `move_axon_servos_90_and_back`; AxonCycleWrites states what each channel receives |
| DoorSequencer.LatchWritesEffect | fingerprint_logic.py:75-76 | the first write goes to axon1's channel, the second to axon2's, and no other channel is written |
| DoorSequencer.SwingCycleWrites | fingerprint_logic.py:78-87 | the swing channel receives the opening sweep then the closing sweep, and no other channel is written |
| DoorSequencer.AxonCycleWrites | fingerprint_logic.py:75-90 | each latch is written exactly twice, first 90 degrees toward 0 (clamped) and then back to its start; the swing arm receives the opening sweep followed by the closing sweep |
| DoorSequencer.OpenChoreographyWrites | fingerprint_logic.py:202-209 | opening writes axon1 once (raw 49, logical 90), axon2 once (0), and the swing arm 61 times through 0, 2, ..., 120 |
| DoorSequencer.OpenChoreographyOrder | fingerprint_logic.py:202-209 | both latches are written before the swing arm moves, and no latch is written after the sweep begins |
| DoorSequencer.CloseChoreographyWrites | fingerprint_logic.py:219-226 | closing writes the swing arm through the reverse of the opening sweep, then axon1 once (raw 139, logical 0) and axon2 once (90) |
| DoorSequencer.CloseChoreographyOrder | fingerprint_logic.py:219-226 | the swing arm is home before either latch is written, and it is not written after the latches |
| DoorSequencer.OpenEffect | fingerprint_logic.py:202-209 | replaying the open choreography leaves axon1 at raw 49, axon2 at 0, the swing arm at 120, and every other channel as it was |
| DoorSequencer.CloseEffect | fingerprint_logic.py:219-226 | replaying the close choreography leaves the swing arm at 0, axon1 at raw 139, axon2 at 90, and every other channel as it was |
| DoorSequencer.ResetEffect | fingerprint_logic.py:57-63 | replaying initialize_positions leaves axon1 at raw 139, axon2 at 90 and the swing arm at 0 |
| DoorSequencer.OpenThenCloseResets | fingerprint_logic.py:197-229 | opening then closing leaves every channel exactly where initialize_positions puts it, whatever the channels held before |
| DoorSequencer.PosesReached | fingerprint_logic.py:57-63 | the raw values left by the reset and by closing read as the rest pose (0, 90, 0); those left by opening read as the open pose (90, 0, 120) |
| DoorSequencer.LatchRestore | fingerprint_logic.py:66-91 | a latch's starting angle and its target 90 lower are accepted by the driver, and writing the start back restores the raw value the channel held |
| Enrolment.NextId | fingerprint_logic.py:131 | 1 when no ids are recorded; otherwise a free slot in 1..127 with every smaller slot taken, and None exactly when all 127 slots are taken |
| Enrolment.SmallestFreeFrom | fingerprint_logic.py:131 | the smallest slot in k..127 not in use, or None when all of them are in use |
| Enrolment.NextIdIgnoresOrder | fingerprint_logic.py:131 | the slot chosen depends only on the set of recorded ids, not on their order or on repeats |
| Enrolment.EnrolmentAdvances | fingerprint_logic.py:131 | after enrolling at the chosen slot, the next enrolment chooses a strictly larger slot or none, so no slot is reused |
| PinAuth.DecimalString | smtp_utils.py:18 | Python `str` of a non-negative int: at least one decimal digit, and no leading zero unless the number is 0 |
| PinAuth.DecimalRoundTrip | smtp_utils.py:18 | reading the decimal string back as a number gives the number |
| PinAuth.DecimalLength | smtp_utils.py:18 | a number in [10^k, 10^(k+1)) has exactly k + 1 digits |
| PinAuth.GeneratePin | smtp_utils.py:16-18 | for a draw r in [0, 900000): a string of exactly six digits with no leading zero, whose value is r + 100000 |
| PinAuth.PinInjective | smtp_utils.py:16-18 | different draws give different PINs |
| PinAuth.Verify | smtp_utils.py:41-57 | accepted exactly when the email has an entry that is not expired (now - issued <= 600) and whose PIN matches; the entry is removed when it is expired or accepted and kept otherwise; entries for other emails are never touched |
| PinAuth.Expired | smtp_utils.py:49 | the strict `> 600` test: an entry is still valid up to and including 600 seconds after issue and expired from 601 on |
| PinAuth.PinStore.constructor | smtp_utils.py:14 | `active_pins = {}`: the store starts with no PIN issued to any address |
| PinAuth.PinStore.SendPinEmail | smtp_utils.py:20-39 | stores the generated PIN with the current time under the address, replacing any earlier entry, whatever the mail outcome; returns that outcome |
| PinAuth.PinStore.VerifyPin | smtp_utils.py:41-57 | the answer and the new store are exactly those of Verify on the old store |
| PinAuth.OneShot | smtp_utils.py:53-55 | once a PIN is accepted, the same PIN for the same address is refused at any later time |
| PinAuth.IssueThenVerify | smtp_utils.py:22-23 | the PIN just issued is accepted exactly when presented within 600 seconds (600 included), and its entry is gone afterwards either way |
| PinAuth.ReissueVoidsOldPin | smtp_utils.py:22-23 | issuing a new PIN to an address makes the old PIN unacceptable |
| PinAuth.WrongPinKeepsEntry | smtp_utils.py:53-57 | a wrong PIN within the lifetime is refused, the store is unchanged, and the right PIN is still accepted |
| PinAuth.ExpiredRefused | smtp_utils.py:49-51 | an expired entry is refused even with the matching PIN, and it is deleted |
| ServoController.StartAngle | servo_controller.py:15 | the start angle is the reading, with both None and 0 replaced by 45 |
| ServoController.RaisedAngle | servo_controller.py:16 | the raised angle is never above 139; it equals start + 90 exactly when the start is at most 49, and it is 139 otherwise |
| ServoController.CycleEvents | servo_controller.py:17-21 | the five events of one cycle, with writes first and fourth; CycleWrites states what is written |
| ServoController.CycleWrites | servo_controller.py:17-20 | a cycle writes the servo exactly twice: first the raised angle, then the start angle |
| ServoController.LegacyServo.constructor | servo_controller.py:11 | the channel-3 servo as built: never driven, so its reading is None, and its event log is empty |
| ServoController.LegacyServo.OpenAndCloseServo | servo_controller.py:14-21 | logs raise, 2 s, 10 s, restore, 2 s; the servo ends at the start angle: at its old reading if that was not 0, and at 45 if it was None or 0 |

## Left out

- Hardware setup is not modelled: I2C, the PCA9685 and ServoKit set-up, pulse-width calibration, and `cleanup_servo`.
- The getter's read-back from the duty cycle is not modelled. On hardware it returns a float close to the written angle. The model returns the written angle exactly.
- Motion.Range: Python's `range` raises `ValueError` on a zero step. The model makes a non-zero step a precondition instead. Every caller passes step 2.
- Motion.SmoothAngles: the default arguments `step=1, delay=0.02` of `smooth_servo_move` have no counterpart. Every caller passes step 2 and delay 0.02 explicitly.
- Pause durations are logged as `Sleep(ms)` events; no time passes.
- The clock is an integer number of seconds. `time.time()` is a float, so sub-second differences around the 600-second bound are not modelled.
- `secrets.randbelow` is the parameter `r` of `GeneratePin` and `SendPinEmail`.
- PinAuth.PinStore.SendPinEmail: building and sending the message over SMTP is not modelled. The outcome is the parameter `delivered`.
- PinAuth.PinStore.SendPinEmail: with the credential lines 10-11 left commented out, line 27 raises a NameError after the PIN has been stored. The model describes a configured deployment, so the mail outcome is a parameter.
- An exception part-way through a choreography is not modelled, such as an I2C write error. The driver's refusal of an out-of-range angle is a precondition (`Actuators.Accepts`) rather than an error path, and every caller in the model meets it.
- The fingerprint sensor protocol is not modelled. This covers `initialize_sensor`, `get_fingerprint`, the capture loops of `enroll_fingerprint`, and `delete_fingerprint`. Firestore reads and writes are not modelled either. `Enrolment.NextId` takes the ids read from Firestore as its input.
- The Flask application is not modelled: routes, sessions and templates. Its separate `temp_pins` check, which has no expiry, is left out as well. Only the `/validate` decision is modelled, as `DoorSequencer.Door.Validate`. The `/closedoor` route passes `close_door_if_open`'s result through unchanged.
- Concurrent requests are not modelled. Nothing in the program locks `door_state`, and calls are taken to be strictly sequential.
- The commented-out earlier versions of the code are not modelled, nor is console output.
