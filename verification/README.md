# Station interlocks and automation: a verified model

This project models the parts of an amateur-radio station's control software that keep real state and whose safety
cannot be settled by examples, and proves what they keep over all inputs and all runs:

- **PA-arm interlock** (`Arm*.dfy`, `Permit.dfy`). The firmware that arms the power amplifier: six input feeds, two
  classes of gates, four one-shot windows on a wrapping 32-bit millisecond counter, a close dwell, a relay whose
  readback may lie, and the echo protocol of the arm permit. Every handler is written once for two clocks, the
  firmware's and true time, and the two are proved to agree.
- **Antenna-mode engine** (`Ant*.dfy`, `Policy*.dfy`, `Heading.dfy`). The storm and maintenance lock: ground, retract,
  park; a borrow of antenna power that must survive crashes; sequence numbers that must never repeat; quiet-time
  accounting; and two durable copies of the state, the file and the engine's own retained message.
- **Beam steering** (`Steer.dfy`, `Beam*.dfy`). The least-travel decision over angles, and the engine whose
  decide and flush routines call each other.
- **ACOM scanner** (`Acom*.dfy`). The resynchronising frame scanner and the frame writer it must read back.
- **Award index** (`Award.dfy`). A map index that must answer like a naive scan of the log.
- **Antenna reconciler** (`Reconcile.dfy`, `Follow*.dfy`). The priority ladder, the emission layer whose
  deduplication is reset when a lock ends, and the walk-away rule with the station holds that suspend it.

Each component that updates state in place is a class with the program's fields. Every method of such a class is
proved to take the model's step: its postcondition equates the new state with a specification function of the old one.
The specification functions are then what the run theorems are about. A run is any sequence of events with their times:
any interleaving of messages, losses, reconnects and passes. Saves and publishes may fail at any point; which of them
fail is an arbitrary function that the theorems quantify over. A publish that reports an error may still have been
delivered, and counts as sent wherever that is the dangerous case.

Where the code and the property one would expect part ways, the project keeps the code, shows the input, and proves the
exact condition:

- A motion command does not always open the amplifier relay on the next pass: if the controller's "moving" and "stopped"
  reports are both handled before that pass and the amplifier is keyed, the relay stays closed
  (`ArmKeyedMove.WholeMoveBetweenPassesKeepsClosed`). `ArmStay.StaysClosedExactly` says exactly when a pass keeps it
  closed, both motion windows told by the history (`ArmMotion.BlindGateExactly`, `ArmStay.SettleGateExactly`).
- The window logic needs passes no more than 2^32 - 10000 ms apart; one millisecond more, and a lapsed window is judged
  open again (`ArmClock.GapBoundIsTight`).
- A press of the arm permit is not always authoritative until its own publish comes back: an older value equal to it, still
  in flight, ends the echo early, and an opposite one behind that flips the permit (`Permit.StaleEchoFlipsPermit`;
  exactly then: `Permit.PressHoldsExactly`).
- The configuration accepts lobes narrower than half a degree, for which deciding and flushing can call each other
  forever. `BeamSettles.EndsExactlyWhen` and `BeamSettles.FlushEndsExactlyWhen` say on exactly which inputs, for every lobe
  the configuration accepts and both ways in. When such a round does end it has tried the same rotation twice
  (`BeamSettles.RoundTriesAgain`, `BeamSafety.StepDisciplinedExactly`).
- A borrow adopted from the retained message is not on disk until the first save, and the first step may switch power on
  before it (`AntBorrowFate.AdoptedBorrowIsNotSafe`); and a newer message without the borrow makes the engine forget
  one whose power is on (`AntBorrowFate.OverruledBorrowIsNotSafe`). The invariant that makes every crash point safe is kept
  exactly by the adoptions that do neither (`AntBorrow.AdoptionSafeExactly`, over whole runs
  `AntBorrow.SafeThroughoutExactly`); which of the others cost a crash point at the first step, `AntFirstStep` says exactly.
- A borrow that falls due and cannot be saved restarts the phase's timeout, at every such step and at no other
  (`AntStall.GroundingRestartsExactlyWhen`). Progress needs just those saves (`AntDeadline.EveryLockParksInTime`); while
  they fail, a storm that must borrow power never leaves grounding (`AntStall.NeverPasses`, `AntStall.StormNeverParks`).
- A lock adopted over another keeps the other's mark that its park target was seen, so that a maintenance lock may be
  declared parked by a nudge nobody gave (`AntInherit.InheritedMarkParks`). The mark means what it should exactly unless
  it was inherited so (`AntNudge.ParkSeenExactly`).
- Adding log entries never turns a satisfied slot needed, but it can move a candidate that brings no state of its own to
  another slot (`Award.StateChangeCanRevive`; exactly when: `Award.RevivedExactlyWhen`).

Reading order: `ArmModel`, `AntModel`/`AntEvents`, `BeamModel`, `Follow` and `Policy` hold the specification functions;
`ArmFirmware`, `AntEngine`, `BeamEngine`, `FollowClient`, `AcomDevice.Port`, `Award.SlotIndex`, `Permit.PermitNode` and
`Policy.AntPolicy` the classes; the other modules the theorems.

## Model

| member | source | states |
|---|---|---|
| ArmDwell.EnergisedOnlyAfterDwell | m5stamp-hf-ctrl/src/arm.h:564-594 | In every run the relay is energised only on a pass with every gate clear, permit and RX, after a dwell of at least 1000 true ms in which no pass failed a gate and no non-RX radio message or update start came. |
| ArmDwell.EnergiseIsCloseEdge | m5stamp-hf-ctrl/src/arm.h:593-643 | Of all the writes of a pass, only the command's close edge energises the relay. |
| ArmDwell.ClosesWhenDue | m5stamp-hf-ctrl/src/arm.h:564-594 | Conversely, by the history alone: once a dwell that a pass started has held through a pass at least 1000 true ms later (and less than a clock period) with every gate clear, an open relay has been energised by then. |
| ArmDwell.DwellStart | m5stamp-hf-ctrl/src/arm.h:571-589 | A running dwell was started by an earlier pass and nothing has interrupted it since; a non-RX radio message does. |
| ArmClock.WindowsExact | m5stamp-hf-ctrl/src/arm.h:465-475 | At every pass the 32-bit firmware judges the command-blind, settle, band-change and heartbeat windows open exactly when the true elapsed time is below the window, for passes no more than 2^32 - 10000 ms apart. |
| ArmClock.GatesExact | m5stamp-hf-ctrl/src/arm.h:469-558 | So every gate verdict, hazard, readiness, fault and dwell block, is the one an unbounded clock gives. |
| ArmClock.GapBoundIsTight | m5stamp-hf-ctrl/src/arm.h:465-475 | The bound is exact: a concrete run whose passes are one millisecond further apart judges a lapsed window as open. |
| ArmRelay.CountersAlwaysMatch | m5stamp-hf-ctrl/src/arm.h:596-641 | For any readback sequence the firmware's counters are functions of the history: failed rewrites since a consistent pass, drops since forgiveness, drops in a row, consistent passes. |
| ArmRelay.LatchesExactlyWhen | m5stamp-hf-ctrl/src/arm.h:596-641 | The relay fault latches exactly on the third failed rewrite since a consistent pass or the third unforgiven confirmed drop. |
| ArmRelay.LatchHasThreeCauses | m5stamp-hf-ctrl/src/arm.h:596-641 | A latch is always the last of three such passes of the run, with no consistent pass, or no forgiveness, between them. |
| ArmRelay.ThreeFailedRewritesLatch | m5stamp-hf-ctrl/src/arm.h:618-629 | And three failed rewrites with no consistent pass between do latch it. |
| ArmRelay.ThreeDropsLatch | m5stamp-hf-ctrl/src/arm.h:598-617 | And so do three confirmed drops with no forgiveness between. |
| ArmRelay.OutputFollowsCommand | m5stamp-hf-ctrl/src/arm.h:587-629 | In every run the level last written to the relay is the commanded one, and a pass that finds a relay it means to be open reading closed writes it open again on that very pass. |
| ArmRelay.LatchLasts | m5stamp-hf-ctrl/src/arm.h:630-636 | A latched fault is cleared only after at least 20 consistent passes, the relay being commanded open on every pass until then. |
| ArmRelay.ForgivenOnlyAfterStability | m5stamp-hf-ctrl/src/arm.h:637-641 | Drops are forgiven only after 1200 closed, consistent passes with no inconsistent pass between. |
| ArmMotion.BlindTriggerNeverShortens | m5stamp-hf-ctrl/src/arm.h:214-223 | A trigger that is not an observed stop never moves the settle deadline earlier. |
| ArmMotion.MoveIsTracked | m5stamp-hf-ctrl/src/arm.h:283-381 | After a motion command: the move counts as seen only if reported since; until a stop is observed the blind window and the 3000 ms settle stand; every observed stop holds the deadline 250 ms beyond it. |
| ArmMotion.BlindGateExactly | m5stamp-hf-ctrl/src/arm.h:283-381 | At every pass the blind gate is open exactly when some motion command is less than 2500 ms old and its motion has not been seen through, reported moving and then stopped. |
| ArmMotion.ClosedDuringMoveOnlyIfSeenThrough | m5stamp-hf-ctrl/src/arm.h:508-529 | After a motion command a pass leaves the relay closed only if the move was seen through or 2500 ms have gone by, and then only while keyed, or 250 ms past every observed stop and, with none observed, 3000 ms past the command. |
| ArmMotion.ClosesAgainOnlyAfterSettle | m5stamp-hf-ctrl/src/arm.h:508-529 | It is energised again only 250 ms past every observed stop, or with none observed only once both command windows have ended. |
| ArmStay.SettleGateExactly | m5stamp-hf-ctrl/src/arm.h:214-332 | At every pass the settle window is open exactly when some command, port entry, silent change or stop report opened one that is still running in true time and no observed stop has replaced it. |
| ArmStay.StaysClosedExactly | m5stamp-hf-ctrl/src/arm.h:508-594 | With the beam in circuit a pass keeps a closed relay closed exactly when permit is on, no fault latched and no drop confirmed, every motion commanded in the last 2500 ms has been seen through, the other hazards are clear, and the amplifier is keyed or no settle window runs and the other readiness gates are clear. |
| ArmKeyedMove.WholeMoveBetweenPassesKeepsClosed | m5stamp-hf-ctrl/src/arm.h:347-381 | A concrete keyed run in which a motion command is followed by a pass that leaves the relay closed, because the whole move was reported before it. |
| ArmClosed.ClosedMeansSafe | m5stamp-hf-ctrl/src/arm.h:469-594 | At the end of every pass a commanded-closed relay implies permit, no relay fault, a live radio, a true heartbeat under 10 s old, no tuning, a frequency within 2 kHz of a PA-safe band, no hazard, and readiness failing only while keyed. |
| ArmClosed.ClosedMeansNoHazard | m5stamp-hf-ctrl/src/arm.h:564-594 | The pass keeps the relay closed only with no hazard and no latched fault, and an unready gate only under drive. |
| ArmClosed.HeartbeatOnRecord | m5stamp-hf-ctrl/src/arm.h:225-245 | A heartbeat on record was opened by a message whose timestamp differed from the preceding one and which was not the first since the subscribe. |
| ArmClosed.RadioMemory | m5stamp-hf-ctrl/src/arm.h:225-267 | The radio record is that of the messages since the last invalidation: last timestamp, messages counted, band derived. |
| ArmBands.DerivedBandIsNear | m5stamp-hf-ctrl/src/arm.h:172-186 | By induction through the hysteresis, a derived band's frequency is within 2 kHz of that band's edges. |
| ArmBands.SafeIsNever60m | m5stamp-hf-ctrl/src/config.h:66-88 | No frequency that near a PA-safe band is a 60m frequency. |
| ArmBands.ScanBand | m5stamp-hf-ctrl/src/arm.h:172-186 | The scan over the band table returns the band the frequency lies in, or the previous one within its hysteresis, or none. |
| ArmFirmware.ScanGates | m5stamp-hf-ctrl/src/arm.h:477-558 | The gate scan accumulates exactly the hazard, readiness, fault and dwell verdicts of the gates' definitions. |
| ArmFirmware.ScanBeam | m5stamp-hf-ctrl/src/arm.h:508-535 | The Ultrabeam gates, judged only while it is the antenna in circuit. |
| ArmFirmware.NextRadio | m5stamp-hf-ctrl/src/arm.h:225-267 | The radio record after a message: conservative defaults, and a heartbeat only for a new timestamp. |
| ArmFirmware.DrivesMotors | m5stamp-hf-ctrl/src/arm.h:347-372 | Whether a controller command will move the elements, with the integer-kHz deadband. |
| ArmFirmware.Interlock.Invalidate | m5stamp-hf-ctrl/src/arm.h:141-168 | Every input back to unknown or unsafe; windows, latches, edge memory and the drive untouched. |
| ArmFirmware.Interlock.StartUbSettle | m5stamp-hf-ctrl/src/arm.h:214-223 | The settle window opens as the model's, on the wrapping clock. |
| ArmFirmware.Interlock.OnRadioState | m5stamp-hf-ctrl/src/arm.h:225-267 | New radio record, band-change edge, and the dwell reset on a non-RX message. |
| ArmFirmware.Interlock.OnSwitchState | m5stamp-hf-ctrl/src/arm.h:269-281 | Antenna position and settling; entering the Ultrabeam port opens a settle. |
| ArmFirmware.Interlock.OnCtrlState | m5stamp-hf-ctrl/src/arm.h:283-332 | Controller report: move seen, stop, silent change, latch clearing. |
| ArmFirmware.Interlock.OnCtrlCmd | m5stamp-hf-ctrl/src/arm.h:347-381 | A motion command opens the blind and settle windows and sets or clears the retract latch. |
| ArmFirmware.Interlock.OnSelectState | m5stamp-hf-ctrl/src/arm.h:383-388 | The reconciler's target. |
| ArmFirmware.Interlock.OnPaState | m5stamp-hf-ctrl/src/arm.h:389-405 | Amplifier liveness, fault and whether its keying is known. |
| ArmFirmware.Interlock.OnTunerState | m5stamp-hf-ctrl/src/arm.h:406-416 | Tuner liveness and settling. |
| ArmFirmware.Interlock.Evaluate | m5stamp-hf-ctrl/src/arm.h:469-558 | Lapsed windows expire for good, then the gates are scanned. |
| ArmFirmware.Interlock.DriveRelay | m5stamp-hf-ctrl/src/arm.h:566-594 | The dwell clock and the wanted relay command, and the write on an edge. |
| ArmFirmware.Interlock.VerifyRelay | m5stamp-hf-ctrl/src/arm.h:596-642 | The readback verification with its counters, rewrites, latch and forgiveness. |
| ArmFirmware.Interlock.Recompute | m5stamp-hf-ctrl/src/arm.h:564-643 | One pass is the model's pass on feeds and drive. |
| ArmFirmware.Interlock.Dispatch | m5stamp-hf-ctrl/src/arm.h:422-440 | Every event is the model's step. |
| Permit.PermitNode.HandleSetEnabled | m5stamp-hf-ctrl/src/main.cpp:161-179 | While an echo is pending only the own intent is accepted, and ends it; a bad value changes only the error. |
| Permit.PermitNode.PublishPermit | m5stamp-hf-ctrl/src/main.cpp:243-255 | The permit becomes the pending intent, sent if the link is up. |
| Permit.PermitNode.Button | m5stamp-hf-ctrl/src/main.cpp:414-426 | A press toggles the permit and announces it. |
| Permit.PermitNode.OnConnected | m5stamp-hf-ctrl/src/main.cpp:465-477 | A pending intent is announced again on every connect. |
| Permit.PermitAlwaysCoherent | m5stamp-hf-ctrl/src/main.cpp:161-179 | In every history of presses, resends, lost publishes, other writers and reconnects: while an echo is pending the permit is the last press, and with nothing pending or in flight it is the retained intent. |
| Permit.OwnEchoSettles | m5stamp-hf-ctrl/src/main.cpp:558-562 | Whatever stale values are ahead, delivering the own publish ends the echo with the published permit. |
| Permit.PressWinsOncePublished | m5stamp-hf-ctrl/src/main.cpp:558-562 | A press wins as soon as one publish gets through, however many were lost before. |
| Permit.EchoEndsExactlyWhen | m5stamp-hf-ctrl/src/main.cpp:161-179 | While values in flight are delivered the echo ends exactly when one of them is the pressed value, whoever published it, and the permit is then whatever comes last. |
| Permit.PressHoldsExactly | m5stamp-hf-ctrl/src/main.cpp:161-179 | A press stays in force throughout that delivery exactly when no opposite value comes behind an equal one. |
| Permit.StaleEchoFlipsPermit | m5stamp-hf-ctrl/src/main.cpp:161-179 | A concrete history: a press crossing an older on and off is taken back, and for good if its own publish was lost. |
| Steer.DiffIsCircular | beamsteer/internal/steer/steer.go:63-69 | The angle difference is the least distance over all numbers of turns, and attained. |
| Steer.BestIsLeastTravel | beamsteer/internal/steer/steer.go:156-168 | The target aims at its heading, is in range, and no in-range target for that heading is nearer in linear travel. |
| Steer.RotatesExactlyWhenOutOfReach | beamsteer/internal/steer/steer.go:81-125 | A known direction rotates exactly when no lobe it could use without rotating covers the bearing. |
| Steer.RotationIsLeastTravel | beamsteer/internal/steer/steer.go:81-168 | Every rotation goes to a whole degree in range for the bearing or its opposite, no further than any other such target; front wins ties and is the only lobe on 6m. |
| Steer.DecideIsFixpoint | beamsteer/internal/steer/steer.go:81-125 | Carried out, a decision leaves nothing more to do and, which is the same, a live lobe on the bearing, exactly when it does not rotate or the lobe holds the rounding of the bearing; a fixed beam on 6m ends forward. |
| Steer.RotationSettlesExactlyWhen | beamsteer/internal/steer/steer.go:156-168 | The rotation alone settles the decision exactly when rounding the bearing moves it by no more than the live lobe; otherwise the same decision is taken again. |
| Steer.NarrowLobeNeverSettles | beamsteer/internal/config/config.go:112-114 | A bearing of 10.5 degrees under a quarter-degree lobe asks for the target the boom is already on, forever. |
| BeamSettles.EndsExactlyWhen | beamsteer/internal/engine/engine.go:407-637 | For every lobe the configuration accepts, handling a request ends exactly unless it rotates and flips, the flip may go, rounding exceeds the lobe, and no publish fails again. |
| BeamSettles.FlushEndsExactlyWhen | beamsteer/internal/engine/engine.go:574-617 | The same for entry through a flush: it ends exactly unless the held flip is for the latest request, may go now, rotates, rounding exceeds the lobe, and no publish fails again. |
| BeamSettles.DecidingIsStraightLine | beamsteer/internal/engine/engine.go:407-439 | Unless it goes round (rotates, flips, the flip may go, rounding exceeds the lobe and the rotation's publish succeeds), the mutual recursion is: decide once, rotate at most once, change direction at most once. |
| BeamSettles.RoundTriesAgain | beamsteer/internal/engine/engine.go:407-439 | Going round tries the same rotation a second time, at once. |
| BeamSettles.TwoFlushesSuffice | beamsteer/internal/engine/engine.go:574-617 | Unless it goes round, a flush ends within two, as that straight line. |
| BeamSafety.StepDisciplinedExactly | beamsteer/internal/engine/engine.go:366-637 | One event commands at most one rotation, then at most one direction, or one stop, and anything only when the recorded antenna mode does not refuse it: exactly unless the event goes round. |
| BeamAims.AlwaysCoherent | beamsteer/internal/engine/engine.go:366-439 | In every run that never goes round, a held flip belongs to the latest request, and none is held under an applied lock or with smart rotation off. |
| BeamAims.FittingRunsNeverRound | beamsteer/internal/config/config.go:112-114 | A run goes round nowhere if the lobe holds the rounding of every bearing asked for, as half a degree always does. |
| BeamAims.GotoAims | beamsteer/internal/engine/engine.go:366-439 | A request that is acted on, its publishes going out, leaves the commanded beam on its bearing, at once or with the flip held, exactly when it needs no rotation or the live lobe holds the rounding; a flip is held only while elements move, the radio transmits or a flip is in flight. |
| BeamAims.FlushAims | beamsteer/internal/engine/engine.go:574-617 | A released flip is decided afresh: the beam ends aimed at the latest request, exactly under the same condition, and the direction sent is the one then wanted. |
| BeamAims.TickSendsHeldFlip | beamsteer/internal/engine/engine.go:459-470 | A held flip goes on the first tick at which nothing stands in its way, and aims the beam exactly under the same condition. |
| BeamAims.NothingMovesUnderLock | beamsteer/internal/engine/engine.go:518-564 | In every run a rotation, direction or stop is commanded only when the last delivered antenna mode is normal, and since the last connect one of that connection was seen or three seconds passed. |
| BeamTrust.TurnIsTrue | beamsteer/internal/engine/engine.go:222-249 | In every run the target in flight goes back to the set_az that commanded it; acknowledged, moved and its window are told by the rotator's frames since. |
| BeamTrust.TrustEndsExactly | beamsteer/internal/engine/engine.go:222-249 | An event that commands no other target ends the trust in the one in flight exactly when it is a frame with the rotator standing there, or standing after it moved for it, or heading elsewhere once it acknowledged, an accepted stop, or a tick after its window. |
| BeamEngine.Engine.Goto | beamsteer/internal/engine/engine.go:366-402 | A request is the model's step. |
| BeamEngine.Engine.DecideAndApply | beamsteer/internal/engine/engine.go:407-439 | Decides, rotates, holds and flushes as the model, and terminates. |
| BeamEngine.Engine.FlushPending | beamsteer/internal/engine/engine.go:574-617 | Flushes as the model, reports the change, and terminates. |
| BeamEngine.Engine.SendRotate | beamsteer/internal/engine/engine.go:628-637 | A target is in flight only if its command went out. |
| BeamEngine.Engine.SyncAntMode | beamsteer/internal/engine/engine.go:518-552 | The recorded antenna mode is applied, a lock drops the held flip, the connect hold ends. |
| BeamEngine.Engine.SettleRotator | beamsteer/internal/engine/engine.go:228-249 | A rotator frame acknowledges, marks moved or retires the target in flight. |
| BeamEngine.Engine.RotatorState | beamsteer/internal/engine/engine.go:203-220 | A rotator report is the model's step. |
| BeamEngine.Engine.AntState | beamsteer/internal/engine/engine.go:257-283 | A controller report settles or drops the flip in flight and retries a held one. |
| BeamEngine.Engine.RadioState | beamsteer/internal/engine/engine.go:291-304 | A radio report retries a held flip. |
| BeamEngine.Engine.Stop | beamsteer/internal/engine/engine.go:445-455 | A stop is sent unless the antenna is locked, and drops the target in flight. |
| BeamEngine.Engine.Tick | beamsteer/internal/engine/engine.go:459-470 | Lapsed windows stop being trusted and a held flip is retried. |
| BeamEngine.Engine.SetConnected | beamsteer/internal/engine/engine.go:175-181 | Every connect starts the antenna-mode hold. |
| BeamEngine.Engine.SetEnabled | beamsteer/internal/engine/engine.go:184-193 | A toggle drops what was decided before it. |
| BeamEngine.Engine.InputsChanged | beamsteer/internal/engine/engine.go:656-671 | A change of sibling liveness is reported. |
| AcomFrames.VerifyChecksum | acom1200s-pa-bridge/internal/acom/protocol.go:40-49 | True exactly for at least four bytes whose wrapping sum is zero. |
| AcomFrames.CalculateChecksum | acom1200s-pa-bridge/internal/acom/protocol.go:52-58 | The one byte that makes the sum zero. |
| AcomFrames.ScanConserves | acom1200s-pa-bridge/internal/acom/device.go:472-503 | Frames, discarded bytes and remainder put together in order are the input. |
| AcomFrames.ScanAccounts | acom1200s-pa-bridge/internal/acom/device.go:472-503 | Bytes in equal discarded plus frame bytes plus remainder; the remainder is an incomplete frame under 255 bytes; every accepted frame is one. |
| AcomFrames.ScanExtends | acom1200s-pa-bridge/internal/acom/device.go:472-503 | What a scan has settled stays settled when more bytes follow. |
| AcomFrames.ChunksDoNotMatter | acom1200s-pa-bridge/internal/acom/device.go:472-503 | Any split of a stream gives the frames, discards and remainder of one call. |
| AcomFrames.FramesReadBack | acom1200s-pa-bridge/internal/acom/device.go:541-637 | Frames sent back to back are read back one for one, whatever follows. |
| AcomFrames.NoiseCostsItself | acom1200s-pa-bridge/internal/acom/device.go:472-503 | Noise without a start byte in front of frames is discarded exactly, and no frame is lost. |
| AcomDevice.OutboundIsFramed | acom1200s-pa-bridge/internal/acom/device.go:541-637 | Every packet the device builds is a frame as written. |
| AcomDevice.SplitsDoNotMatter | acom1200s-pa-bridge/internal/acom/device.go:472-533 | However the port cuts the stream, counters, decoded mode and band, observations, acknowledgements and remainder are the same. |
| AcomDevice.EveryFrameCountedAndAcknowledged | acom1200s-pa-bridge/internal/acom/device.go:505-533 | Every accepted frame is counted once, as telemetry or ignored, and acknowledged once and in order while the port stays up. |
| AcomDevice.ReadAccounts | acom1200s-pa-bridge/internal/acom/device.go:472-533 | The counters and acknowledgements account for every byte and frame of an input. |
| AcomDevice.EveryRunReadsBack | acom1200s-pa-bridge/internal/acom/device.go:541-637 | In every run all bytes handed to the port scan back, in any chunks, into exactly the frames written, with nothing discarded. |
| AcomDevice.BandChangeArrives | acom1200s-pa-bridge/internal/acom/device.go:567-592 | The bytes of a successful band change, read back and followed one band at a time, lead from the decoded band to the target; a failed one stops on the way. |
| AcomDevice.Port.ProcessBuffer | acom1200s-pa-bridge/internal/acom/device.go:472-503 | The loop over the buffer is the scan, with every frame handled and every discard counted. |
| AcomDevice.Port.HandlePacket | acom1200s-pa-bridge/internal/acom/device.go:505-533 | Acknowledge, classify, decode. |
| AcomDevice.Port.Write | acom1200s-pa-bridge/internal/acom/device.go:611-637 | Checksum appended but for enable-telemetry; a timeout drops the port. |
| AcomDevice.Port.SetMode | acom1200s-pa-bridge/internal/acom/device.go:547-563 | The mode frame, or an error for another mode. |
| AcomDevice.Port.SetBand | acom1200s-pa-bridge/internal/acom/device.go:567-592 | One step frame per band between, stopping at the first failed write. |
| AcomDevice.Port.EnableTelemetry | acom1200s-pa-bridge/internal/acom/device.go:541-544 | The enable frame. |
| AcomDevice.Port.Open | acom1200s-pa-bridge/internal/acom/device.go:108-129 | Opening forgets mode and band and enables telemetry. |
| Award.SlotIndex.Note | chase-queue/internal/award/eval.go:84-101 | A slot is confirmed once any note for it was, else worked. |
| Award.SlotIndex.NoteEntries | chase-queue/internal/award/eval.go:54-71 | The pass over the log agrees with the facts of its entries and knows the last state of every call. |
| Award.SlotIndex.NoteClub | chase-queue/internal/award/eval.go:72-80 | The confirmation matrix adds exactly its confirmed cells, in whatever order its keys come. |
| Award.Build | chase-queue/internal/award/eval.go:45-82 | The built index answers like a naive scan of the log. |
| Award.NotingAgrees | chase-queue/internal/award/eval.go:84-101 | Noting one more fact keeps the agreement. |
| Award.EvaluateIsNaive | chase-queue/internal/award/eval.go:177-251 | A told candidate is Confirmed exactly when an entry or cell for its slot is, WorkedUnconfirmed when one is there but none confirmed, else Unworked; needed by the rule, first and all-time new over all slices. |
| Award.OrderDoesNotMatter | chase-queue/internal/award/eval.go:45-101 | Slots and firsts are independent of entry order. |
| Award.SlotsStaySatisfied | chase-queue/internal/award/eval.go:167-172 | A satisfied slot stays satisfied in every larger log, and a key that is no first never becomes one. |
| Award.CandidateStaysSatisfied | chase-queue/internal/award/eval.go:177-251 | A candidate not needed stays not needed as the log grows, unless the log now tells another state for its call. |
| Award.RevivedExactlyWhen | chase-queue/internal/award/eval.go:177-251 | A candidate that was not needed is needed in a larger log exactly when the award is over states, it brings none of its own, the log now tells another one in the award, and that one's slot is not satisfied. |
| Award.StateChangeCanRevive | chase-queue/internal/award/eval.go:55-57 | Two logs, the second larger, in which a candidate with no state of its own becomes needed. |
| Award.AtnoIsFreshIsNeeded | chase-queue/internal/award/eval.go:247-249 | An all-time new one is a first, and a first is needed. |
| Reconcile.PortForBand | antennaselect/internal/reconcile/reconcile.go:220-236 | The port of the first wired resource listing the band, else the fallback. |
| Reconcile.PortIsOrderFree | antennaselect/internal/reconcile/reconcile.go:220-236 | In a valid configuration the order of resources is irrelevant: the port of every resource listing the band. |
| Reconcile.LockAndManualStandDown | antennaselect/internal/reconcile/reconcile.go:150-304 | Under the lock no frequency and no tuner intent, only a select to off; in manual without a lock nothing; no select while transmitting. |
| Reconcile.HigherTiersDecide | antennaselect/internal/reconcile/reconcile.go:150-205 | A tier decides alone: under the lock, a manual stand-down, an inactive station or a hold, what lower tiers look at does not matter. |
| Reconcile.AutoFollowsPolicy | antennaselect/internal/reconcile/reconcile.go:186-236 | The automatic tier sends a listed band to the port of any resource listing it and an unlisted one to the fallback; without a live radio and a known band nothing moves. |
| FollowRuns.LockIsSilent | antennaselect/internal/mqtt/client.go:566-667 | The same for what is sent, at every event of every run. |
| FollowRuns.UnlockReextends | antennaselect/internal/mqtt/client.go:414-430 | After every unlock the first event at which the followed antenna is the target with a live, known frequency sends it, changed or not. |
| FollowRuns.RepeatHasACause | antennaselect/internal/mqtt/client.go:463-516 | Sending the same frequency again takes a cause in between, which it uses up: an unlock, the controller's return, or a stall retry. |
| FollowRuns.CauseResends | antennaselect/internal/mqtt/client.go:463-516 | And such a cause sends it, if it is wanted. |
| FollowRuns.OneRetryPerUnlock | antennaselect/internal/mqtt/client.go:498-516 | Between two stall retries there is an unlock. |
| FollowRuns.CausesAreReal | antennaselect/internal/mqtt/client.go:463-516 | A return is an offline-to-online edge in the controller's reports; a retry comes at least 15 s after an event since which the last report has been online, retracted and unlocked, with no lock on and the frequency sent; both follow some unlock. |
| FollowClient.Worker.Update | antennaselect/internal/mqtt/client.go:566-667 | Sends what the deduplication lets through and remembers it. |
| FollowClient.Worker.ApplyAntMode | antennaselect/internal/mqtt/client.go:414-430 | Records the lock; an unlock resets what the lock held back. |
| FollowClient.Worker.ApplyFollowState | antennaselect/internal/mqtt/client.go:463-480 | Confirms or re-arms the re-extend. |
| FollowClient.Worker.CheckReextendStall | antennaselect/internal/mqtt/client.go:498-516 | Records the onset, fires once on the periodic check after the grace. |
| FollowClient.Worker.CheckIdle | antennaselect/internal/mqtt/client.go:256-264 | A live station hold counts as activity, then the walk-away timeout and the stall check. |
| FollowClient.Worker.ApplyHolds | antennaselect/internal/mqtt/hold.go:134-157 | The station is marked active exactly when some configured slot is online with a hold before its end and under ten minutes old. |
| FollowClient.Worker.OnHoldStatus | antennaselect/internal/mqtt/hold.go:90-100 | A slot's status is recorded and the holds are judged. |
| FollowClient.Worker.OnHoldState | antennaselect/internal/mqtt/hold.go:102-119 | A slot's hold, or its release, is recorded with its receipt and the holds are judged. |
| FollowPresence.LeftExactlyWhen | antennaselect/internal/mqtt/client.go:253-264 | In every run the station counts as left exactly when some idle check found the whole walk-away timeout before it without activity, and there has been none since; activity told by the messages alone. |
| FollowPresence.HeldIsNeverLeft | antennaselect/internal/mqtt/hold.go:22-52 | While a hold keeps itself alive no idle check leaves the station marked as left. |
| FollowClient.Worker.ApplyRadioState | antennaselect/internal/mqtt/client.go:291-328 | Activity only from a live radio link. |
| FollowClient.Worker.OnOperator | antennaselect/internal/mqtt/client.go:357-386 | A hold is activity, a release is not. |
| Heading.Storm | antmode/internal/heading/heading.go:34-66 | The candidate loops compute the park azimuth. |
| Heading.StormIsNearestBroadside | antmode/internal/heading/heading.go:34-66 | With the wind known the azimuth is broadside and in range, and no broadside target in range is nearer, or as near and lower. |
| Heading.StormInRange | antmode/internal/heading/heading.go:34-66 | Whatever the inputs, a valid configuration's azimuth is within 0 to 450. |
| Policy.Search | antmode/internal/policy/policy.go:291-302 | Binary search finds the rank in a sorted set. |
| Policy.Contains | antmode/internal/policy/policy.go:291-294 | On a sorted set the search finds exactly the members. |
| Policy.Insert | antmode/internal/policy/policy.go:296-302 | Inserts at the rank. |
| Policy.Prune | antmode/internal/policy/policy.go:304-312 | Keeps the members that are still there. |
| Policy.InsertKeepsSorted | antmode/internal/policy/policy.go:296-302 | Inserting an id keeps the set sorted and adds exactly it. |
| Policy.SortingSorts | antmode/internal/policy/policy.go:116-117 | A loaded id list is put in order with the same members. |
| Policy.AntPolicy.constructor | antmode/internal/policy/policy.go:109-119 | A policy over any loaded standing, its id lists put in order. |
| Policy.PruneKeepsSorted | antmode/internal/policy/policy.go:304-312 | Pruning keeps the set sorted and is the intersection. |
| Policy.AntPolicy.SetMode | antmode/internal/policy/policy.go:123-146 | An operator's mode: entered manually, active warnings acknowledged by a normal; the current mode is a no-op. |
| Policy.AntPolicy.Enter | antmode/internal/policy/policy.go:148-155 | A locked mode takes the next sequence number; quiet time starts anew. |
| Policy.AntPolicy.Repark | antmode/internal/policy/policy.go:158-165 | The next sequence number, in a locked mode only. |
| Policy.AntPolicy.Dismiss | antmode/internal/policy/policy.go:168-177 | The active ids join the dismissed set. |
| Policy.AntPolicy.Poll | antmode/internal/policy/policy.go:182-219 | Pruning, quiet time and the automatic exit. |
| Policy.AntPolicy.Evaluate | antmode/internal/policy/policy.go:223-233 | Automatic entry for an unacknowledged warning on an unmanned station. |
| PolicyRuns.AlwaysSorted | antmode/internal/policy/policy.go:109-219 | Both id sets stay sorted in every run. |
| PolicyRuns.AckedExactly | antmode/internal/policy/policy.go:123-194 | The acknowledged ids are exactly those active at a manual normal and found by every successful poll since. |
| PolicyRuns.OnlyTheseChangeTheMode | antmode/internal/policy/policy.go:123-233 | The mode changes only by set_ant_mode, an auto storm's clean poll, or an auto entry for a warning not acknowledged. |
| PolicyRuns.SeqCountsLocks | antmode/internal/policy/policy.go:148-165 | In every run the sequence number is that of the start plus the number of locked entries and reparks so far. |
| PolicyRuns.AutoStormEndsExactlyWhenQuiet | antmode/internal/policy/policy.go:182-219 | An auto storm ends by itself exactly at the clean poll that brings the gaps between adjacent clean polls, since entry and since the last warning, to the hold-off. |
| AntLockRuns.LockAlwaysOk | antmode/internal/engine/engine.go:787-832 | In every run a lock exists exactly when the mode is not normal, always grounds, carries an azimuth only while retracting, is rotating, parked or failed only with one; a restore is pending exactly when a borrow outlived the mode. |
| AntLockRuns.SeqNeverFalls | antmode/internal/engine/engine.go:343-364 | The sequence number never falls, adoption included. |
| AntLockRuns.NewLocksTakeNewNumbers | antmode/internal/policy/policy.go:148-165 | Every entry, repark or switch of locked modes takes a number above every number used before; no event but an adoption does otherwise. |
| AntLockRuns.OneAzimuthPerNumber | antmode/internal/engine/engine.go:1053-1079 | Adoptions aside, a sequence number gets at most one park azimuth. |
| AntLockRuns.RetractHasACause | antmode/internal/engine/engine.go:977-999 | A retract is first ordered by a live switch reporting off, or after the ground timeout with the radio quiet. |
| AntWatch.NoRetractNearTransmission | antmode/internal/engine/engine.go:982-999 | Without the switch confirmed, no step of the last tx_quiet saw the radio transmitting. |
| AntAutomation.EngineRunsPolicy | antmode/internal/engine/engine.go:581-946 | As long as the engine's own state comes back only as an echo after the startup hold, its policy state is that of the policy run its events ask for. |
| AntAutomation.ManualEndsOnlyByCommand | antmode/internal/policy/policy.go:182-233 | A manual storm and a maintenance end only by a set_ant_mode handled at that event. |
| AntAutomation.AlwaysInOrder | antmode/internal/policy/policy.go:109-312 | In every run of the engine from a start, over any state file or none and adoptions included, both id lists are in order, as the binary search needs. |
| AntAutomation.AutoStormEndsOnlyQuiet | antmode/internal/engine/engine.go:581-606 | An auto storm that ends with no command ends at a warning poll that finds nothing, with the quiet gaps at the hold-off. |
| AntAutomation.AutoStormOnlyUnmanned | antmode/internal/engine/engine.go:730-768 | An automatic storm is entered only with auto entry on, for an active warning not acknowledged, and with no step of the last minute, or ever, seeing the station manned. |
| AntBorrow.BorrowIsCrashSafe | antmode/internal/engine/engine.go:839-918 | From nothing or any state file, in every run whose adoptions are safe ones and at every crash point between two saves or power commands: power switched on and neither restored nor taken over means the disk holds the borrow. |
| AntBorrow.AdoptionSafeExactly | antmode/internal/engine/engine.go:343-409 | An adoption keeps the invariant behind that (every borrow held is on disk, every power-on out is a borrow held, every crash point is safe) exactly when a borrow the message brings is on disk and power already out is accounted for by the message. |
| AntBorrow.SafeThroughoutExactly | antmode/internal/engine/engine.go:343-409 | A run from a start keeps that invariant throughout exactly when each of its adoptions does. |
| AntFirstStep.UnsavedBorrowExactly | antmode/internal/engine/engine.go:316-409 | An adopted borrow that is not on disk, no power being out, costs a crash point at the step that ends the startup hold exactly when its lock waits for the power. |
| AntFirstStep.ForgottenBorrowExactly | antmode/internal/engine/engine.go:316-409 | Power out whose borrow an adoption forgot costs a crash point at that step exactly when the step's save reaches the disk without a new borrow having been taken. |
| AntBorrowFate.BorrowOnlyGivenUp | antmode/internal/engine/engine.go:1158-1212 | A borrow powerseq does not own stays held until its restore is published or powerseq takes over. |
| AntBorrowFate.RestartHoldsBorrow | antmode/internal/engine/engine.go:237-299 | A start from what such a crash left on disk holds the borrow again, due for restoring if the saved mode is normal. |
| AntBorrowFate.AdoptedBorrowIsNotSafe | antmode/internal/engine/engine.go:316-333 | A concrete run: an adopted borrow's power is switched on before any save. |
| AntBorrowFate.OverruledBorrowIsNotSafe | antmode/internal/engine/engine.go:363-409 | A concrete run: a newer message without a borrow overrules the file that holds one whose power is on, and the first save forgets it. |
| AntParked.ParkedMeansAtRest | antmode/internal/engine/engine.go:1081-1133 | The park is declared parked only with the rotator live, at rest and within tolerance of the azimuth, or in maintenance at a target that is neither that nor the nudge base, with the mark set that the park azimuth was its target before. |
| AntNudge.ParkSeenExactly | antmode/internal/engine/engine.go:485-499 | In every run, that mark means that under this same sequence number some event saw the rotator head for the park azimuth and the rotator has stayed live since, exactly unless the number was adopted over another whose mark was set and nothing has been seen since. |
| AntNudge.NudgeBaseMeans | antmode/internal/engine/engine.go:808-832 | In every run the nudge base is the rotator's target when the number was entered, switched to or reparked; an adoption keeps the base there was. |
| AntInherit.ParkedMeansSighted | antmode/internal/engine/engine.go:1081-1133 | So a park declared parked has the boom at its azimuth or a nudge after a sighting of it, but for such an adopted number. |
| AntInherit.InheritedMarkParks | antmode/internal/engine/engine.go:343-409 | A concrete run: a maintenance lock adopted over a parked storm lock is declared parked 110 degrees off its park azimuth, never having been seen heading for it. |
| AntParked.PowerIsCutOnlyWhenFree | antmode/internal/engine/engine.go:1158-1212 | Borrowed power is switched off only at an event that ends in normal mode or in a storm whose park has ended, with powerseq there; never in maintenance. |
| AntProgress.PhasesCannotCycle | antmode/internal/engine/engine.go:922-1041 | While a sequence number lasts, every phase change takes its one borrow or lowers the phase's rank. |
| AntProgress.FewPhaseChanges | antmode/internal/engine/engine.go:948-1041 | So, adoptions aside, it sees at most thirteen phase changes. |
| AntDeadline.EveryLockParksInTime | antmode/internal/engine/engine.go:948-1041 | From the step that enters, reparks or switches it, or the tick that resumes it after the startup hold, loaded, adopted or queued, with a step at least once a second, a quiet radio and no due borrow whose save fails, every lock is parked or failed within the summed timeouts counted twice. |
| AntDeadline.ResumedAtOnce | antmode/internal/engine/engine.go:316-333 | The tick that ends the startup hold starts the phase it resumes, and the wait for power and devices, anew. |
| AntDeadline.ParkedOrFailedInTime | antmode/internal/engine/engine.go:948-1041 | From any timely state, by that state's own deadline, whatever else fails to be saved or comes back of the engine's own state. |
| AntStall.FailingSaveBounces | antmode/internal/engine/engine.go:893-901 | With the borrow's save failing, a step ends where it began with the ground timeout started anew. |
| AntStall.GroundingRestartsExactlyWhen | antmode/internal/engine/engine.go:875-909 | A step leaves a grounding lock grounding with its timeout started anew exactly when it finds a borrow due whose save fails. |
| AntStall.NeverPasses | antmode/internal/engine/engine.go:893-901 | So as long as that save fails at every tick, whatever becomes of the others, no number of ticks takes the lock out of grounding. |
| AntStall.StormNeverParks | antmode/internal/engine/engine.go:893-901 | A concrete run from a start with no file reaches that state and stays in it past any bound. |
| AntAdoption.LostFileRoundTrip | antmode/internal/engine/engine.go:343-409 | From any reachable locked state, an engine without a file that hears the published state recovers mode, lock, source, phase, borrow and a sequence number not below, and publishes the same message again. |
| AntAdoption.StaleFileIsOverruled | antmode/internal/engine/engine.go:363-372 | A file older than the published lock is overruled by it; one at least as new wins and only learns the number. |
| AntAdoption.WhatIsWrittenReads | shared/antmode/antmode.go:106-126 | What the engine publishes parses back as it is, its azimuth being in range. |
| AntAdoption.SavedLockIsLoaded | antmode/internal/engine/engine.go:237-299 | From any state any run reaches, a start from the file saved there is in the saved lock, policy and borrow, the acknowledged and dismissed ids included. |
| AntEngine.Machine.constructor | antmode/internal/engine/engine.go:237-299 | A start over a loaded file or none, repaired toward safety. |
| AntEngine.Machine.SetPhase | antmode/internal/engine/engine.go:772-778 | A phase change restarts the phase clock; the same phase does not. |
| AntEngine.Machine.OnModeChanged | antmode/internal/engine/engine.go:787-806 | A mode change locks, unlocks or restarts the park. |
| AntEngine.Machine.RestartPark | antmode/internal/engine/engine.go:820-832 | The park runs again under the new number, ground and retract staying in force. |
| AntEngine.Machine.AttachBorrow | antmode/internal/engine/engine.go:839-855 | An open borrow passes to the new lock, one taken over is dropped. |
| AntEngine.Machine.StartBorrowIfNeeded | antmode/internal/engine/engine.go:875-909 | The borrow is saved before power is switched on, and given up if the save fails. |
| AntEngine.Machine.SendPowerOn | antmode/internal/engine/engine.go:911-918 | Power on is tried, and marked sent only if the publish succeeded. |
| AntEngine.Machine.Step | antmode/internal/engine/engine.go:922-946 | Presence, automatic entry, late borrow, lock, restore. |
| AntEngine.Machine.StepLock | antmode/internal/engine/engine.go:948-1037 | One step of the lock sequence. |
| AntEngine.Machine.ComputePark | antmode/internal/engine/engine.go:1053-1079 | The azimuth is set once per number, from the wind or the preset. |
| AntEngine.Machine.NoteParkTarget | antmode/internal/engine/engine.go:485-499 | Whether the rotator has been seen heading for the park azimuth. |
| AntEngine.Machine.StepBorrow | antmode/internal/engine/engine.go:1158-1212 | Takeover, and the restore when it is due. |
| AntEngine.Machine.TrackPresence | antmode/internal/engine/engine.go:762-768 | The manned-to-unmanned edge is timed. |
| AntEngine.Machine.Persist | antmode/internal/engine/engine.go:1242-1257 | The state is saved when it differs from what was saved. |
| AntEngine.Machine.ApplyCmd | antmode/internal/engine/engine.go:660-719 | Commands, dropped when stale or from the future. |
| AntEngine.Machine.OnCmd | antmode/internal/engine/engine.go:639-658 | Queued during the startup hold, applied after it. |
| AntEngine.Machine.BecomeReady | antmode/internal/engine/engine.go:316-333 | The hold ends: queued commands, a step, a save. |
| AntEngine.Machine.Tick | antmode/internal/engine/engine.go:619-629 | The startup hold, then a step a second. |
| AntEngine.Machine.OnNinaResult | antmode/internal/engine/engine.go:581-606 | A warning poll, kept but not counted before the hold ends. |
| AntEngine.Machine.OnPowerSeqState | antmode/internal/engine/engine.go:423-449 | powerseq's phase, and the lost phase after a restart. |
| AntEngine.Machine.OnRotatorState | antmode/internal/engine/engine.go:457-478 | A rotator report. |
| AntEngine.Machine.OnRadioState | antmode/internal/engine/engine.go:536-553 | A radio report; a transmission lasted until its end is reported. |
| AntEngine.Machine.OnAntCtrlState | antmode/internal/engine/engine.go:503-517 | A controller report. |
| AntEngine.Machine.OnAntSwitchState | antmode/internal/engine/engine.go:521-532 | A switch report. |
| AntEngine.Machine.OnPowerState | antmode/internal/engine/engine.go:557-568 | An antenna-power report. |
| AntEngine.Machine.OnOwnState | antmode/internal/engine/engine.go:343-409 | The retained own state: the number is learned, a newer lock adopted. |
| AntEngine.Machine.NormalizeLoaded | antmode/internal/engine/engine.go:272-299 | A loaded or adopted state is repaired toward safety. |

## Left out

- BeamEngine.Engine.Goto: the engine's methods that may decide, and the run theorems of the `Beam` modules, are for events that do not go round, since for others a method need not return, or returns after sending the same rotation again (`BeamSettles.EndsExactlyWhen`, `BeamSettles.RoundTriesAgain`); no event goes round when the lobe holds the rounding of the bearings asked for (`BeamAims.FittingRunsNeverRound`).
- AntLockRuns.OneAzimuthPerNumber: says nothing across an adoption, which takes whatever azimuth the message carries.
- Message parsing and encoding (JSON, TOML), topics, subscriptions, reconnect loops and logging: handlers start from parsed records; a payload that does not parse is its own case.
- Published status messages: their content is modelled only where it is adopted (the antenna-mode state); when they are published and deduplicated is not, nor are drift, reason texts, fault texts and displays.
- The cross-band split gate of the interlock, which is compiled out, and the name of the first failing gate, which is only displayed.
- Numbers: sequence numbers are unbounded integers (the program's are 64 bits), degrees are reals, times whole milliseconds and constant within one event; only the firmware's 32-bit clock and the 8-bit checksums wrap.
- Ids, keys and modes: warning ids are integers, ordered as the program's sorted texts are; award keys, mode classes, bands and phases are datatypes; a candidate's state comes trimmed and in upper case.
- Award definitions files, the contest award and display labels.
- The ACOM bridge's run loop (liveness, re-arm and reopen timers), power averaging and the decoded measurements other than mode and band.
- The sorting of the reconciler's band-policy resources at start: the policy is given in order, and in a valid configuration the order is irrelevant (`Reconcile.PortIsOrderFree`).
- The log texts of station holds, and who holds the station and why.
- Rotator readback for the logger, and the beam engine's own state message beyond that it is sent.
- Concurrency between a program's goroutines: every handler is one atomic step of its single worker.
