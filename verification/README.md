# Rover firmware: a verified model

The firmware runs on two boards. The controller board talks to a PS5 pad over Bluetooth, filters what it
reads and writes it to a serial link. The main board receives those records, runs the mode machine of the
rover (driving, recording a route, replaying it, moving the arm, autonomous, error, disconnected), and drives
motors, steering and arm servos. This project models the parts of both boards that carry state or
arithmetic, and proves what they keep, over every run of the model.

`dafny verify dfyconfig.toml` checks everything.

## How it is organised

| file | what it models |
|---|---|
| WordBits, Crc32, Gf2, CrcPolynomial, OutputReport | the CRC-32 seal of the pad's output reports, as a bit loop and as division over GF(2) |
| Common, Servo, ThrottleTable, Messages | integers of the target, servo pulses, the throttle curve, the main queue |
| PadData, Ps5Parser, ControllerLink | the controller record, its parser, its frame and checksum, the change filter |
| RouteRecorder, Arm | the route recorder with its replay task, the arm's queue and motion loop |
| Rover, RoverTask | the mode machine and the three tasks as a step system, and the same code over mutable state |
| RoverTransitions | the mode machine as a table: mode, motors, flags and locks after every message |
| RoverInvariants, RoverProtocol | what every interleaving keeps; what disciplined runs keep, and exactly which steps break it |
| RoverArm | what a stop means for the arm once arm mode is left |
| RoverReplay, RoverRoundTrip | recording a drive and replaying it, in every interleaving |
| RoverFrames, RemoteControl | held, damaged and lost controllers; from the controller to the motors |
| RoverScenarios | runs from the start of the firmware |
| Obstructions, Bmx280 | the sonar sweep and the bumpers; temperature compensation |

Where the source changes state in place, a class does so here (`Crc32.Compute`, `OutputReport.Sender`,
`RouteRecorder.RecorderTask`, `Arm.ArmTask`, `RoverTask.MainTask`, `ControllerLink.LinkTask`,
`Obstructions.SweepTask`, `Bmx280.Driver`, `Ps5Parser.Parser`), and every method is proved to do exactly
what a function of the old state says. The lemmas are about those functions; `RoverTask.MainTask.Perform` runs
whole schedules of the tasks over the mutable state and keeps what the lemmas promise.

## Assumptions

- Each of these is one step: the main task handling one message; the replay task from the top of its loop to its
  delay; the replay task from its delay to the next one or to its suspension
  (mainboard/main/routerecorder.c:48-73); the arm task taking a message; one arm tick. Steps of different tasks
  interleave in any order. A finer interleaving can behave differently: the end-of-replay message is sent before
  `replaying` is cleared (mainboard/main/routerecorder.c:65-69).
- A task that is asleep can wake at any moment; aborting the delay therefore needs no step of its own.
- The clock is a parameter of the steps that read it, as unbounded microseconds; the model cuts it to the 32 bits
  the firmware keeps. A tick is 10 ms (mainboard/sdkconfig:1382).
- Right shifts of negative numbers are arithmetic, as on the target; narrowing casts wrap around.
- Whole frames arrive on the serial link, possibly damaged. The controller record has no padding bits set.
- Each pass of the controller board's loop reads one snapshot of the controller.

## Where the code and its comments disagree

The model follows the code.

- A sonar timeout, 0xFFFF, is meant to be far away (mainboard/main/obstructions.c:65). Stored in a signed 16-bit
  variable it counts as near: `Obstructions.ReadingNearIff`, `Obstructions.TimeoutDetected`. Nothing in the firmware
  enables the sweep at present: the one call that would is commented out (mainboard/main/hardware.c:301). That a pass
  is enabled is a hypothesis of these results.
- Autonomous mode is to start moving (mainboard/main/hardware.c:329). Its direction 0 is reverse for
  `process_throttle`: `RoverProtocol.RunCoupled`.
- Steering is said to be between -31 and 32 (mainboard/main/hardware.c:513). The shift gives -32 to 31:
  `RoverInvariants.RunKeeps`.

Other behaviour that a reader may not expect, each stated by a lemma:

- A STOP for a full arm queue is dropped, and the arm goes on moving: `Arm.DisableStopsIffAccepted`,
  `Arm.DroppedStopMoves`.
- After a loss of the controller, in whatever mode, the motors keep running for as long as it stays away, unless a
  replay is on and changes them, and through its first frame when it is back, unless that leaves autonomous mode:
  `RemoteControl.LossKeepsMotors`, `RemoteControl.ReturnKeepsMotors`. Autonomous mode does not notice the loss at all
  and goes on in reverse: `RoverFrames.AutonomousRunsOn`, `RoverScenarios.RunawayReachable`.
- A replay goes on after the controller is lost, even into arm mode: `RoverFrames.ReplayMovesInArmMode`.
- Restarting a replay before its task has parked can play stale slots: `RoverScenarios.StaleReachable`,
  `RoverScenarios.StalePlays`, and exactly when: `RoverRoundTrip.HastyRestartIff`.
- Releasing the trigger slowly can leave the rover driving: `RemoteControl.SlowReleaseKeepsDriving`, and exactly
  when: `RemoteControl.RestStopsIff`.
- A damaged frame makes held buttons count as pressed again: `RoverFrames.DamageRearms`.
- The end message of a replay is lost in a full main queue (`RoverScenarios.StrandedReachable`), and the mode machine
  then waits in replaying mode for a replay press or a lost controller: `RoverProtocol.OverdueUntil`.

## Model

| member | source | states |
|---|---|---|
| Crc32.AbsorbByte | ps5/main/ps5.c:70-75 | the inner loop absorbs one byte as the register specification does |
| Crc32.Compute | ps5/main/ps5.c:63-79 | the bit loop over any part of a buffer leaves the specified register, from any start |
| Crc32.ComputeInTwo | ps5/main/ps5.c:144-145 | two chained calls, split anywhere, equal one pass over all the bytes |
| Crc32.RunAppend | ps5/main/ps5.c:144-145 | chaining: the register over a + b is the register over b started from that over a |
| Gf2.RemainderUnique | ps5/main/ps5.c:68-76 | division by a polynomial with leading coefficient 1 has at most one remainder |
| Gf2.ShiftAllIsRemainder | ps5/main/ps5.c:68-76 | a shift register with feedback holds a remainder of everything shifted in |
| Gf2.BurstDetected | ps5/main/ps5.c:68-76 | two streams that differ only inside one register width end alike exactly when they are equal |
| CrcPolynomial.StepBits | ps5/main/ps5.c:73-74 | one bit step is one shift of the polynomial register with the generator of V.42, reversed |
| CrcPolynomial.RunBits | ps5/main/ps5.c:63-79 | the byte loop shifts in the message's bits, least significant first, from any start |
| CrcPolynomial.RegisterIsRemainder | ps5/main/ps5.c:63-79 | a polynomial is the remainder of the message shifted by 32 plus 32 ones on top exactly when it is the bit-reversed register of a run from 0xffffffff: its complement is the FCS of section 8.1.1.6.2 of ITU-T V.42 |
| CrcPolynomial.ByteBurstDetected | ps5/main/ps5.c:68-76 | messages that differ only inside four consecutive bytes have equal CRCs exactly when they are equal, from any start |
| OutputReport.Sender.Send | ps5/main/ps5.c:133-146 | what leaves the board has 0xa2, 0x31, 16 times the sequence number and 0x10 in its first four bytes, the caller's bytes after them, and the CRC at its end, low byte first; a run from all ones over all 79 bytes leaves 0xDEBB20E3; the sequence number counts modulo 16 |
| OutputReport.Sender.SealReport | ps5/main/ps5.c:144-146 | the report ends as its first 75 bytes and their CRC |
| OutputReport.RunWord | ps5/main/ps5.c:70-75 | absorbing a little-endian word is xoring it in and stepping 32 times |
| OutputReport.ResidueIffSealed | ps5/main/ps5.c:144-146 | from 0xffffffff message and stored word leave 0xDEBB20E3 exactly when the word is the complement of the message's register |
| OutputReport.DamageShows | ps5/main/ps5.c:144-146 | a sealed report damaged inside four consecutive bytes leaves the residue only if it is undamaged |
| Servo.PulseIsSafe | mainboard/main/servo.c:16-19 | among 16-bit angles exactly -90 to 90 degrees give pulses of 500 to 2500 |
| Servo.PulseMonotone | mainboard/main/servo.c:16-19 | in that range a larger angle gives a longer pulse, so that angles are told apart |
| Servo.PulseIsLinear | mainboard/main/servo.c:16-19 | in that range the pulse is the linear interpolation from 500 to 2500 microseconds, cut to an integer |
| ThrottleTable.TableIsCurve | mainboard/main/hardware.c:57 | the table has 256 entries, 0 at rest, rises strictly, ends at 8191 |
| RoverInvariants.DutyInRange | mainboard/main/pwm.c:11-18 | with the table in use duties fit 12 bits, never both are on, both are off exactly at throttle 0 |
| RoverTransitions.PacketMode | mainboard/main/hardware.c:343-636 | the mode after a packet, in every mode, as a table over what the packet shows anew and the recorder's flags |
| RoverTransitions.PacketFlags | mainboard/main/routerecorder.c:94-166 | the recorder's flags after a packet, in every mode, exactly |
| RoverTransitions.PacketLocks | mainboard/main/hardware.c:230-399 | the trigger locks after a packet, in every mode, exactly |
| RoverTransitions.LiveDriving | mainboard/main/hardware.c:512-533 | in driving and in recording mode, in the packet's own fields: the right trigger wins and drives forward, the left one backs, a quarter of the left stick steers |
| RoverTransitions.PacketMotors | mainboard/main/hardware.c:343-636 | after every other packet: arm mode stops the motors, autonomous mode backs at throttle 30, leaving it stops, all else leaves motors and steering as they are |
| RoverTransitions.SignalEffect | mainboard/main/hardware.c:416-430 | a collision or an obstruction stops a driving rover, locks its triggers and leads to error mode; the end of a replay that is over leads to driving; nothing else but a packet changes mode, motors, steering, recorder, arm or locks |
| RoverTransitions.HaltedUntilCross | mainboard/main/hardware.c:401-414 | a rover stopped by an alarm stands still, through every run in which cross is not pressed anew |
| RoverTransitions.AlarmStops | mainboard/main/hardware.c:793-825 | an alarm at place k of the queue is handled by main step k + 1 of every run, and stops the rover if it drives then |
| RoverTransitions.InitialState | mainboard/main/hardware.c:748-777 | the firmware starts disconnected, motors off, steering at 1500 microseconds, recorder idle, arm disabled, queue empty |
| Messages.MessageQueue.Put | mainboard/main/hardware.c:788-791 | a message goes to the back, or is lost when 20 are waiting |
| PadData.SetChecksum | ps5/main/app_main.c:65-74 | the frame becomes its first 23 bytes and their byte sum modulo 256 |
| PadData.SumBytes | mainboard/main/hardware.c:832-836 | the accumulating loop computes the byte sum of the first 23 bytes modulo 256 |
| PadData.SealedFrameArrives | common/ps5_data.h:27-64 | round trip: every record, encoded and sealed, is accepted and decodes to itself, all 22 buttons included |
| PadData.ButtonBits | common/ps5_data.h:28-57 | each of the 22 buttons is read from the header's byte and bit for it |
| PadData.FieldBytes | common/ps5_data.h:4-22 | sticks, triggers, marks and battery are read from the header's bytes for them |
| PadData.DamageAcceptedIff | mainboard/main/hardware.c:830-837 | a damaged frame is accepted exactly when its checksum error is the change of its byte sum modulo 256 |
| PadData.OneByteNoticed | mainboard/main/hardware.c:830-837 | damage to a single byte is always noticed |
| RoverTask.ReadFrame | mainboard/main/hardware.c:830-849 | the checksum path: a damaged frame becomes a neutral connected record, a disconnected one a neutral record, any other its decoding |
| Ps5Parser.SticksAreBijective | ps5/main/ps5_parser.c:315-327 | every stick position is reached by exactly one byte; the axes run in opposite senses |
| Ps5Parser.OneDirection | ps5/main/ps5_parser.c:343-359 | at most one direction is reported, and one is exactly when the code is below 8 |
| Ps5Parser.ReportBits | ps5/main/ps5_parser.c:343-380 | each button but the directions is read from its own bit of the three button bytes |
| Ps5Parser.DirectionCodes | ps5/main/ps5_parser.c:343-359 | each direction is read from its code in the low half of the first button byte |
| Ps5Parser.ButtonsRoundTrip | ps5/main/ps5_parser.c:343-380 | every set of buttons with at most one direction is the reading of some button bytes |
| Ps5Parser.ReportRoundTrip | ps5/main/ps5_parser.c:96-126 | every record with at most one direction is the reading of a report of either kind, with the controls at the source's offsets, whatever else the report holds |
| Ps5Parser.Parser.ParsePacket | ps5/main/ps5_parser.c:96-126 | a report replaces sticks, triggers, buttons and status; the events are the presses, releases and moved axes since the record before |
| Ps5Parser.NoEventIff | ps5/main/ps5_parser.c:135-206 | there are no events exactly when buttons and axes are the same |
| Ps5Parser.EventsGiveLevel | ps5/main/ps5_parser.c:135-193 | over any stream of reports presses less releases of a button is its change of level |
| ControllerLink.LinkTask.Check | ps5/main/app_main.c:119-189 | one pass of the loop writes exactly the packets and keeps exactly the state that the specification says |
| ControllerLink.LinkTask.HasChanges | ps5/main/app_main.c:155-174 | a change is a difference in one of 14 buttons, or of more than 2 in an axis or trigger |
| ControllerLink.ComparedButtons | ps5/main/app_main.c:155-168 | all buttons are compared but the diagonals, share, options, PS and the touchpad |
| ControllerLink.PassIsQuietIff | ps5/main/app_main.c:119-188 | a pass writes nothing exactly without a controller already reported lost, or with a connected one that shows no change of a compared button and no move by more than 2 |
| ControllerLink.PassSends | ps5/main/app_main.c:119-188 | what a packet carries, field by field |
| ControllerLink.ChangeFilterNoDrift | ps5/main/app_main.c:119-189 | over every sequence of readings, after a connected pass compared buttons are as last sent, axes and triggers within 2 of the last change packet and 4 of the last packet |
| ControllerLink.MainBoardSees | ps5/main/app_main.c:119-189 | the main board reads the last packet as it was sent, or as a disconnection |
| ControllerLink.PacketsInOrder | ps5/main/app_main.c:119-150 | over every sequence of readings a connect packet comes first and after each disconnect packet, and nowhere else: no two disconnect packets in a row |
| ControllerLink.AwayWritesOnce | ps5/main/app_main.c:119-136 | a controller that stays away is announced by one packet, and by nothing more |
| ControllerLink.DriftOfFour | ps5/main/app_main.c:139-188 | readings for which the distance to the last packet is exactly 4 |
| Arm.ArmTask.Move | mainboard/main/arm.c:40-69 | halved axes are queued as a move if one is beyond 4, else as a stop, if the arm is enabled and the queue has room |
| Arm.ArmTask.Enable | mainboard/main/arm.c:71-85 | the flag changes, and disabling queues a stop if there is room |
| Arm.ArmTask.MotionTick | mainboard/main/arm.c:115-185 | one tick moves the faster axis of each stick, clamps, and sets all four pulses |
| Arm.TickFollowsSticks | mainboard/main/arm.c:115-177 | the faster axis of each stick moves its servo with its velocity, the base against it, up to the limit on its way; the stick's other servo stays |
| Arm.RestIsStop | mainboard/main/arm.c:47-68 | a stop is queued exactly when all four axes are within 9 of the centre |
| Arm.SticksMoveServos | mainboard/main/arm.c:40-177 | from the four stick values to the four angles: which servo moves, at what speed, in what sense, and where it stops |
| Arm.PulseOfAngle | mainboard/main/arm.c:182-185 | the pulse of an angle is that of its whole degrees, cut toward zero |
| Arm.PulseFollowsAngle | mainboard/main/arm.c:182-185 | a larger angle never gives a shorter pulse, and more whole degrees a longer one |
| Arm.InitialAngles | mainboard/main/arm.c:91-94 | the arm starts at 0, -10, -35 and -90 degrees, disabled |
| Arm.StepIsSafe | mainboard/main/arm.c:115-185 | every step keeps angles in their limits, pulses in 500 to 2500, and moves at most one servo of each stick |
| Arm.QueueRefinesRegister | mainboard/main/arm.c:96-188 | every run moves the servos as a machine with one register for the latest accepted command |
| Arm.StoppedStays | mainboard/main/arm.c:96-188 | a disabled arm whose latest command is stop does not move until it is enabled |
| Arm.DisableStopsIffAccepted | mainboard/main/arm.c:71-85 | disabling makes stop the latest command exactly when the queue has room or it was already |
| Arm.DisableFreezes | mainboard/main/arm.c:71-85 | in that case no later step changes an angle until the arm is enabled |
| Arm.DroppedStopMoves | mainboard/main/arm.c:78-84 | a run from the arm's start to a full queue, the arm disabled, and a run in which the boom still moves |
| RouteRecorder.RecorderTask.StartRecording | mainboard/main/routerecorder.c:94-105 | recording starts at an empty route unless it is on or a replay is |
| RouteRecorder.RecorderTask.StartReplay | mainboard/main/routerecorder.c:117-127 | a replay starts, and a suspended task resumes, unless recording, replaying or the route is empty |
| RouteRecorder.RecorderTask.StopReplay | mainboard/main/routerecorder.c:129-142 | the flag is cleared and an end message posted, if a replay was on |
| RouteRecorder.RecorderTask.Process | mainboard/main/routerecorder.c:168-210 | one call stores, discards a duplicate, or ends a recording that found the buffer full |
| RouteRecorder.RecorderTask.Wake | mainboard/main/routerecorder.c:48-73 | the task after its delay: the sample it issues, the end message, the new cursor |
| RouteRecorder.RouteIsDedup | mainboard/main/routerecorder.c:168-210 | for every stream of in-range metrics the buffer holds the stream without consecutive duplicates, cut at 300, and recording ends when a call finds it full |
| RouteRecorder.DedupDistinct | mainboard/main/routerecorder.c:188-197 | no two neighbours of the deduplicated stream are equal |
| RouteRecorder.DedupCovers | mainboard/main/routerecorder.c:188-197 | every position of the stream has its value in the deduplicated one, in order |
| RouteRecorder.DeltaExactIffNoWrap | mainboard/main/routerecorder.c:199-201 | a stored delta is the true gap in milliseconds exactly when the gap is below 2^32 microseconds |
| RouteRecorder.TimingBound | mainboard/main/routerecorder.c:47-47 | n samples lose at most 999n microseconds in the deltas and 9999n in the replay's ticks; duplicates lose nothing |
| RoverTask.MainTask.Dispatch | mainboard/main/hardware.c:343-636 | the seven mode handlers over mutable state leave exactly the specified state |
| RoverTask.MainTask.ProcessPs5Message | mainboard/main/hardware.c:644-676 | the handler of the current mode, the throttle, and the new button word |
| RoverTask.MainTask.HandleNext | mainboard/main/hardware.c:793-860 | one pass of the main loop is one main step of the model |
| RoverTask.MainTask.ReplayWake | mainboard/main/routerecorder.c:48-73 | the replay task after its delay is one wake step of the model |
| RoverTask.MainTask.Execute | mainboard/main/hardware.c:343-676 | every step of every task is one step of the model and keeps the invariant |
| RoverTask.MainTask.Perform | mainboard/main/hardware.c:793-860 | every schedule of the tasks ends in the model's state and keeps the invariant, and each of the three disciplines whose condition its steps meet |
| RoverTask.Boot | mainboard/main/hardware.c:748-777 | every schedule from the start of the firmware ends in the model's state, with the invariant, and with each of the three disciplines whose condition its steps meet |
| RoverInvariants.StepKeeps | mainboard/main/hardware.c:343-676 | one step of any task keeps the invariant below |
| RoverInvariants.RunKeeps | mainboard/main/hardware.c:343-676 | in every interleaving: never recording and replaying, arm enabled exactly in arm mode, recording mode implies recording, all steering and arm pulses in 500 to 2500 and all route slots playable, motors and metrics as commanded, triggers locked where a mode locks them |
| RoverInvariants.InitialInv | mainboard/main/hardware.c:748-777 | the invariant holds when the firmware starts |
| RoverProtocol.StepCoupled | mainboard/main/hardware.c:539-597 | one step keeps flags and modes together exactly if it does not notice a lost controller while the recorder is on |
| RoverProtocol.RunCoupled | mainboard/main/hardware.c:230-254 | throughout a run, exactly if no step notices a lost controller while recording or replaying: recording exactly in recording mode, replaying only in replaying mode, no duty in arm and error mode, throttle 30 in reverse in autonomous mode |
| RoverProtocol.StepNotStranded | mainboard/main/routerecorder.c:62-73 | a step keeps "replaying mode without a replay has an end message waiting" exactly when an ending route finds room in the queue |
| RoverProtocol.RunNotStranded | mainboard/main/routerecorder.c:62-73 | throughout a run ends of replays stay noticeable, exactly if every route that ends finds room for its message |
| RoverProtocol.OverdueUntil | mainboard/main/hardware.c:574-610 | replaying mode without a replay is left, or a replay started, by exactly these messages: an end message, a lost controller, a replay press; by no other step |
| RoverProtocol.EndMessage | mainboard/main/hardware.c:576-585 | the end message leads back to driving exactly when no replay is on, so that a stale one does nothing |
| RoverProtocol.EndIsNoticed | mainboard/main/hardware.c:574-610 | with the end message at place k, replaying mode is left or a replay starts within k + 1 main steps, whatever else happens |
| RoverProtocol.StepInRouteIff | mainboard/main/routerecorder.c:117-142 | a step leaves the route exactly by starting a replay with the cursor beyond its end |
| RoverProtocol.RunInRouteIff | mainboard/main/routerecorder.c:37-74 | replays play recorded slots only, throughout a run, exactly if each starts inside its route |
| RoverProtocol.RunInRoute | mainboard/main/routerecorder.c:37-74 | if the task has parked before each start, the cursor of a replay is always inside the recorded part |
| RoverProtocol.InitialDiscipline | mainboard/main/hardware.c:748-777 | all three disciplines hold when the firmware starts |
| RoverReplay.RecordingPacket | mainboard/main/hardware.c:557-571 | what one packet does while recording: the sample offered has the throttle and direction in force before it and its own steering |
| RoverReplay.OtherStep | mainboard/main/hardware.c:532-537 | while recording, every step that handles no packet leaves the recording, the motors and the steering as they are |
| RoverReplay.DriveIsOffered | mainboard/main/hardware.c:557-571 | in every run of recording mode, whatever arrives and whatever the other tasks do: the recorder gets the lagged stream of the packets handled, and the rover follows the last of them |
| RoverReplay.DriveIsRecorded | mainboard/main/routerecorder.c:168-210 | the buffer after such a run is the lagged stream without consecutive duplicates, cut at 300; all of it while recording goes on, which is until a packet finds the buffer full |
| RoverReplay.ReplayIssues | mainboard/main/routerecorder.c:37-74 | every run that does not interrupt the replay, with any other steps in between, issues the slots from the cursor on, in order, once each, up to where it comes; at the end the task is parked, the end message sent and the route intact |
| RoverReplay.HeldUntilWake | mainboard/main/hardware.c:574-610 | in replaying mode duties and steering stay between wake-ups |
| RoverReplay.AloneCompletes | mainboard/main/routerecorder.c:37-74 | the replay task by itself completes any replay |
| RoverRoundTrip.InForce | mainboard/main/hardware.c:120-160 | at every point of a recorded drive the duties are those of the next packet's sample, the steering that of the last one's |
| RoverRoundTrip.RecordingEndsIff | mainboard/main/hardware.c:546-571 | a packet of a connected controller ends a recording exactly by a press of the record button or by finding the buffer full |
| RoverRoundTrip.CycleIsReady | mainboard/main/hardware.c:446-468 | a recording, however it ended, anything that leaves the recorder idle, and the start of a replay: the replay has the recorded route, and cursor 0 if the task has parked |
| RoverRoundTrip.RestartInRouteIff | mainboard/main/routerecorder.c:117-142 | the new replay is inside its route exactly if the cursor the task was left with is less than the route's length |
| RoverRoundTrip.HastyRestartIff | mainboard/main/routerecorder.c:117-142 | if the replay task does not run in between, exactly if the old replay was stopped before that length |
| RoverRoundTrip.ReplayOfCycle | mainboard/main/routerecorder.c:32-75 | record then replay: in every uninterrupted run the samples issued are the drive's, deduplicated, in order, once each; all of them when the replay has ended |
| RoverRoundTrip.ReplayCompletes | mainboard/main/routerecorder.c:37-74 | such a replay can always be completed |
| RoverRoundTrip.ReplayedAsDriven | mainboard/main/hardware.c:126-160 | for every packet of the drive the replay, once it comes that far, sets the duties that were in force and the steering the packet set |
| RoverRoundTrip.ReplayTakesDriveTime | mainboard/main/routerecorder.c:47-47 | the delays of every completed replay add up to the time from the start of the drive to its last stored sample, less at most a tick a sample, if no stored gap exceeds the stamps |
| RoverRoundTrip.SlotsInOrder | mainboard/main/routerecorder.c:188-197 | consecutive packets are replayed by the same slot or by consecutive ones, from slot 0 on |
| RoverScenarios.CycleReachable | mainboard/main/hardware.c:446-468 | the firmware can get from its start through such a cycle |
| RoverScenarios.StrandedReachable | mainboard/main/routerecorder.c:62-73 | the firmware can get from its start to a replay whose end message finds the queue full |
| RoverScenarios.StaleReachable | mainboard/main/routerecorder.c:117-142 | the firmware can get from its start to a replay whose cursor is outside its route: stopped half-way, recorded over and started again before its task has run |
| RoverScenarios.StalePlays | mainboard/main/routerecorder.c:48-59 | the task of such a replay issues a slot beyond the recorded part |
| RoverScenarios.RunawayReachable | mainboard/main/hardware.c:360-372 | the firmware can get from its start to autonomous mode with its controller lost and the motors in reverse |
| RoverFrames.HeldButtons | mainboard/main/hardware.c:199-212 | in every run whose packets repeat the last one, packets change the mode at most once, and only if it starts in recording mode |
| RoverFrames.HeldStep | mainboard/main/hardware.c:199-212 | a repeated packet changes the mode only from recording to driving, and exactly when the buffer is full |
| RoverFrames.RejectedFrame | mainboard/main/hardware.c:837-860 | exactly what a damaged frame does to mode, motors, steering, recorder, arm, locks and button word |
| RoverFrames.DamageRearms | mainboard/main/hardware.c:837-860 | after a damaged frame a held button counts as newly pressed |
| RoverFrames.LostController | mainboard/main/hardware.c:343-636 | after a loss in any mode the motors keep duty and steering through every run in which no packet is handled and no replay issues a sample; autonomous and error mode stay, every other becomes disconnected |
| RoverFrames.LostWithoutReplay | mainboard/main/hardware.c:343-636 | with no replay on, every run without packets is such a run |
| RoverFrames.AutonomousRunsOn | mainboard/main/hardware.c:360-372 | in autonomous mode the loss is not noticed: the mode stays, with throttle 30 in reverse, through every run without packets |
| RoverFrames.BackPacket | mainboard/main/hardware.c:343-412 | exactly what the first packet of a controller that is back does to mode and motors |
| RoverFrames.SilenceKeepsMotors | mainboard/main/hardware.c:343-412 | without a controller no step but a packet, or a sample of a replay, changes motors and steering |
| RoverFrames.ReplayMovesInArmMode | mainboard/main/hardware.c:592-597 | after a loss during a replay the replay drives the motors in arm mode |
| RoverFrames.RecordingSurvivesLoss | mainboard/main/hardware.c:539-544 | after a loss during a recording the next press of the record button stops it instead of starting one |
| RoverFrames.ArmPacket | mainboard/main/hardware.c:634-635 | in arm mode a packet makes its own axes the arm's latest command and moves nothing else |
| RoverArm.StoppedOutside | mainboard/main/arm.c:96-188 | with a stop as the latest command no run outside arm mode moves the arm, whatever the other tasks do |
| RoverArm.LeavingStopsIff | mainboard/main/hardware.c:620-633 | leaving arm mode makes stop the latest command exactly if the arm's queue has room or it was already |
| RoverArm.LeavingFreezes | mainboard/main/hardware.c:620-633 | in that case the arm does not move until arm mode is entered again |
| RoverFrames.LeavingUnlocksIff | mainboard/main/hardware.c:337-341 | leaving a locking mode unlocks the triggers, except leaving autonomous mode |
| RemoteControl.EdgesAreEvents | mainboard/main/hardware.c:644-669 | the mode machine's edges are the presses and releases the parser reports, button by button |
| RemoteControl.ButtonsArrive | ps5/main/app_main.c:119-189 | with everything delivered the main board has every button of the word right and knows whether there is a controller, for every history |
| RemoteControl.ReportDrives | ps5/main/ps5_parser.c:112-126 | from a report's bytes through the change filter and the link to the motors and the steering of a driving rover |
| RemoteControl.LeftTriggerReverses | ps5/main/ps5_parser.c:329-337 | a report in which only the left trigger is pressed makes the rover reverse |
| RemoteControl.LossIsOnePacket | ps5/main/app_main.c:119-136 | the packet of a loss, and what the main board reads in it |
| RemoteControl.LossKeepsMotors | mainboard/main/hardware.c:343-636 | for every history of readings that ends with a loss, however long, in whatever mode: with everything delivered the motors turn as before it, through every run in which no packet is handled and no replay issues a sample |
| RemoteControl.ReturnKeepsMotors | ps5/main/app_main.c:139-188 | on return the connect packet leaves the motors, unless it shows the button that leaves autonomous mode; another packet follows in the same pass exactly if the record has changed since the last change packet |
| RemoteControl.RestIsSlow | ps5/main/app_main.c:155-188 | with the trigger at rest the main board has last read a throttle of at most 4, of at most 2 from a change packet |
| RemoteControl.RestKnownIff | ps5/main/app_main.c:139-188 | after a reading with both triggers at rest the last packet says so exactly if the controller has just connected, the reading is a change, or the packet before said so |
| RemoteControl.RestStopsIff | ps5/main/app_main.c:155-188 | a driving rover that has followed so far stops exactly if the reading is a change or the packet before said so |
| RemoteControl.SlowReleaseKeepsDriving | ps5/main/app_main.c:155-188 | a family of readings that end with the trigger at rest and a duty that is not zero |
| Obstructions.SweepTask.ObstructionIsTooClose | mainboard/main/obstructions.c:73-91 | the scan finds whether some distance is near |
| Obstructions.SweepTask.Check | mainboard/main/obstructions.c:110-173 | one pass of the loop, probing at the angle left by the last one |
| Obstructions.FlagIsScan | mainboard/main/obstructions.c:110-141 | over every sequence of readings the flag is what a full scan finds, and DETECTED and CLEARED alternate, DETECTED first |
| Obstructions.SweepVisits | mainboard/main/obstructions.c:112-148 | consecutive enabled passes probe consecutive slots, each after the first at the angle of the slot before, and store their readings |
| Obstructions.FullSweep | mainboard/main/obstructions.c:112-148 | of 11 enabled passes exactly one probes a given slot, at the angle of the slot before, and the slot holds its reading at the end |
| Obstructions.PassLags | mainboard/main/obstructions.c:142-147 | after every enabled pass the servo stands at the angle of the slot before the next |
| Obstructions.CollisionsReported | mainboard/main/obstructions.c:150-173 | each press of a bumper is reported once, however long it lasts |
| Obstructions.AnglesAre | mainboard/main/obstructions.c:23-23 | the sweep's angles, slot by slot |
| Obstructions.AnglesSafe | mainboard/main/obstructions.c:23-23 | the sweep's angles give pulses of 500 to 2500 |
| Obstructions.ReadingNearIff | mainboard/main/obstructions.c:118-118 | a 16-bit reading counts as near exactly between 1 and 20 or from 0x8000 on |
| Obstructions.TimeoutDetected | mainboard/main/obstructions.c:118-141 | a single timeout raises the alarm |
| Bmx280.Driver.CompensateTemperature | mainboard/main/bmx280.c:393-401 | the driver stores the fine temperature and returns the result |
| Bmx280.FineTemperature | mainboard/main/bmx280.c:396-398 | the fine temperature with the source's shifts as divisions that round down |
| Bmx280.TemperatureRounds | mainboard/main/bmx280.c:399-399 | the result is 5/256 of the fine temperature, rounded to the nearest |
| Bmx280.NoOverflowExactly | mainboard/main/bmx280.c:393-401 | for 20-bit readings and any constants no intermediate leaves 32 bits exactly when three products fit: the coarse difference times T2, the square of the fine one, and that square's upper part times T3 |
| Bmx280.NoOverflowIff | mainboard/main/bmx280.c:393-401 | with T2 within 16383 and T3 within 4096 that is so exactly when the fine difference is within 46340 |
| Bmx280.CompensationIsClose | mainboard/main/bmx280.c:393-401 | under those bounds the fine temperature is within 15 of the exact rational, the result within 0.8 hundredths of a degree |

## Left out

- Bluetooth, Wi-Fi, web page, over-the-air update, deep sleep, I2C and the serial drivers: their behaviour is not in the repository.
- LED patterns, buzzer, horn, laser and logging: they do not feed back into the modes or the motors.
- Byte framing and resynchronisation of the serial link: whole frames arrive here.
- Arm angles are exact, in twentieths of a degree, where the source adds floats; the integer truncation in the comparison of the axes is kept.
- Of the commands back to the controller only the trigger lock is modelled, as the last one sent; colours and rumble are not.
- Averaging of the battery voltage: the voltage is a parameter of a pass.
- Uninitialised status bits and the sensor bytes of a report: carried along as ten unread bytes.
- Interleavings finer than the steps above, in particular a resume that comes between the test of `replaying` and the suspension, and preemption inside `process_throttle`.
- Fairness and real time: nothing here says that a step happens, only what it does.
- The sonar driver, pressure and humidity, calibration unpacking, wheel speed, tilt and the task pool.
