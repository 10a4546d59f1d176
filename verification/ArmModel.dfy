/** The PA-arm interlock as a state machine over values: the six input feeds, the gates, the relay drive.
    A clock is either the firmware's 32-bit wrapping millisecond counter or true, unbounded time;
    every handler is written once for both. */
module ArmModel {
  import opened Options
  import opened ArmBands

  const WRAP: nat := 0x1_0000_0000
  type u32 = x: int | 0 <= x < 0x1_0000_0000

  // ---------------------------------------------------------------- constants

  const RADIO_HEARTBEAT_MS: nat := 10000
  const ARM_CLOSE_DWELL_MS: nat := 1000
  const BAND_CHANGE_HOLDOFF_MS: nat := 3000
  const ULTRABEAM_PORT := Port(4)
  const ULTRABEAM_DEADBAND_KHZ: nat := 25
  const ULTRABEAM_CMD_BLIND_MS: nat := 2500
  const ULTRABEAM_SETTLE_MS: nat := 3000
  const ULTRABEAM_STOP_SETTLE_MS: nat := 250
  const RELAY_MISMATCH_TRIP: nat := 3
  const RELAY_MISMATCH_CLEAR: nat := 20
  const RELAY_DROP_CONFIRM: nat := 3
  const RELAY_STABLE_PASSES: nat := 1200

  // ---------------------------------------------------------------- the clock

  datatype Clock = Wrapping | Unbounded

  function Stamp(c: Clock, t: nat): nat { if c.Wrapping? then t % WRAP else t }

  /** Time since a stamp: unsigned 32-bit subtraction on the wrapping clock. */
  function Elapsed(c: Clock, now: nat, since: nat): nat {
    if c.Wrapping? then (now - since) % WRAP
    else if since <= now then now - since else 0
  }

  // ---------------------------------------------------------------- inputs

  /** An antenna-switch position: no report (the empty string), grounded ("off"), or a port. */
  datatype Position = Unreported | Off | Port(n: nat)

  /** The amplifier's fault text: none yet (the empty string), "none", or a fault. */
  datatype FaultText = NoTelemetry | NoFault | FaultCode(code: nat)

  datatype Radio = Radio(statusOnline: bool, stateSeen: bool, deviceOnline: bool, tuning: bool, rx: bool,
                         freqHz: u32, band: Band, lastTs: Option<nat>, msgsSinceSub: nat,
                         freshValid: bool, freshMs: nat)
  datatype AntSwitch = AntSwitch(statusOnline: bool, stateSeen: bool, selected: Position, settled: bool)
  datatype AntCtrl = AntCtrl(statusOnline: bool, stateSeen: bool, everSeen: bool, deviceOnline: bool,
                             moving: bool, freqHz: u32, direction: string, retracted: bool)
  datatype AntSelect = AntSelect(statusOnline: bool, target: Position)
  datatype Pa = Pa(statusOnline: bool, stateSeen: bool, deviceOnline: bool, fault: FaultText, keyedKnown: bool)
  datatype Tuner = Tuner(statusOnline: bool, deviceOnline: bool, settling: bool)

  /** The band-change hold-off and the last ham band, for edge detection. */
  datatype BandMemory = BandMemory(lastHamBand: Band, edgeValid: bool, edgeMs: nat)

  /** Timed knowledge of Ultrabeam motion: the settle window, the command-blind window, whether the
      last commanded move was seen moving, and the retract latch. */
  datatype Motion = Motion(settleValid: bool, settleMs: nat, settleDurMs: nat, stopSettle: bool,
                           cmdValid: bool, cmdMs: nat, moveSeen: bool, retracted: bool)

  /** Inputs plus the edge memory and timers that survive reconnects. */
  datatype Feeds = Feeds(radio: Radio, antSw: AntSwitch, ub: AntCtrl, antSel: AntSelect, pa: Pa, tuner: Tuner,
                         edge: BandMemory, mv: Motion)

  const INIT_FEEDS := Feeds(
    Radio(false, false, false, true, false, 0, NoBand, None, 0, false, 0),
    AntSwitch(false, false, Unreported, false),
    AntCtrl(false, false, false, false, true, 0, "", false),
    AntSelect(false, Unreported), Pa(false, false, false, NoTelemetry, false), Tuner(false, false, false),
    BandMemory(NoBand, false, 0), Motion(false, 0, ULTRABEAM_SETTLE_MS, false, false, 0, true, false))

  /** Relay 1: what is commanded, what was read back, and every level written to it so far. */
  datatype Drive = Drive(cmd: bool, readback: bool, fault: bool, mismatchCount: nat, okCount: nat,
                         dropPending: nat, dropCount: nat, stablePasses: nat,
                         closeOkValid: bool, closeOkSinceMs: nat, writes: seq<bool>)

  const INIT_DRIVE := Drive(false, false, false, 0, 0, 0, 0, 0, false, 0, [])

  datatype State = State(f: Feeds, d: Drive)

  const INIT := State(INIT_FEEDS, INIT_DRIVE)

  // ---------------------------------------------------------------- messages

  // Fields absent from the JSON are None. A radio ts is None when absent or empty; tx is Some(true) for "rx",
  // Some(false) for any other text.

  datatype RadioDoc = RadioDoc(deviceOnline: Option<bool>, tuning: Option<bool>, rx: Option<bool>,
                               freqHz: Option<u32>, ts: Option<nat>)
  datatype SwitchDoc = SwitchDoc(selected: Option<Position>, settled: Option<bool>)
  datatype CtrlDoc = CtrlDoc(deviceOnline: Option<bool>, moving: Option<bool>, freqHz: Option<u32>,
                             direction: Option<string>, retracted: Option<bool>)
  datatype CtrlAction = Frequency(freqHz: Option<u32>) | Direction | Mode | ToBand(band: Band) | Retract | OtherAction
  datatype PaDoc = PaDoc(deviceOnline: Option<bool>, fault: Option<FaultText>, keyedKnown: bool)
  datatype TunerDoc = TunerDoc(deviceOnline: Option<bool>, settling: Option<bool>)

  datatype Feed = RadioFeed | SwitchFeed | CtrlFeed | SelectFeed | PaFeed | TunerFeed

  function OnStatus(f: Feeds, feed: Feed, online: bool): Feeds {
    match feed
    case RadioFeed => f.(radio := f.radio.(statusOnline := online))
    case SwitchFeed => f.(antSw := f.antSw.(statusOnline := online))
    case CtrlFeed => f.(ub := f.ub.(statusOnline := online))
    case SelectFeed => f.(antSel := f.antSel.(statusOnline := online))
    case PaFeed => f.(pa := f.pa.(statusOnline := online))
    case TunerFeed => f.(tuner := f.tuner.(statusOnline := online))
  }

  /** Every input back to unknown; edge memory and timers stay. */
  function LostRadio(r: Radio): Radio {
    r.(statusOnline := false, stateSeen := false, deviceOnline := false, tuning := true, rx := false, msgsSinceSub := 0, freshValid := false)
  }

  function LostSwitch(a: AntSwitch): AntSwitch { a.(statusOnline := false, stateSeen := false, settled := false) }

  function LostCtrl(u: AntCtrl): AntCtrl { u.(statusOnline := false, stateSeen := false, deviceOnline := false, moving := true) }

  function Invalidated(f: Feeds): Feeds {
    f.(radio := LostRadio(f.radio), antSw := LostSwitch(f.antSw), ub := LostCtrl(f.ub),
       antSel := AntSelect(false, Unreported), pa := Pa(false, false, false, NoTelemetry, false), tuner := Tuner(false, false, false))
  }

  predicate IsRx(doc: RadioDoc) { doc.rx.GetOr(false) }

  /** A heartbeat: a new, non-empty ts on a message that is not the first since the (re)subscribe. */
  predicate IsHeartbeat(r: Radio, doc: RadioDoc) {
    r.msgsSinceSub >= 1 && doc.ts.Some? && doc.ts != r.lastTs
  }

  function RadioAfter(r: Radio, doc: RadioDoc, nb: Band, now: nat): Radio {
    Radio(r.statusOnline, true, doc.deviceOnline.GetOr(false), doc.tuning.GetOr(true), IsRx(doc), doc.freqHz.GetOr(0), nb,
          doc.ts, if r.msgsSinceSub < 2 then r.msgsSinceSub + 1 else r.msgsSinceSub,
          r.freshValid || IsHeartbeat(r, doc), if IsHeartbeat(r, doc) then now else r.freshMs)
  }

  /** Only another ham band opens the hold-off; leaving one and coming back to it does not. */
  function BandNoted(m: BandMemory, nb: Band, now: nat): BandMemory {
    if nb == NoBand || nb == m.lastHamBand then m
    else if m.lastHamBand == NoBand then m.(lastHamBand := nb)
    else BandMemory(nb, true, now)
  }

  function OnRadioState(f: Feeds, doc: RadioDoc, now: nat): Feeds {
    var nb := BandForFreq(doc.freqHz.GetOr(0), f.radio.band);
    f.(radio := RadioAfter(f.radio, doc, nb, now), edge := BandNoted(f.edge, nb, now))
  }

  /** Open a settle window; a blind trigger never shortens a longer blind window still running. */
  function StartSettle(c: Clock, m: Motion, now: nat, dur: nat, afterStop: bool): Motion {
    if !afterStop && m.settleValid && !m.stopSettle
       && Elapsed(c, now, m.settleMs) < m.settleDurMs && m.settleDurMs - Elapsed(c, now, m.settleMs) >= dur
    then m
    else m.(settleValid := true, settleMs := now, settleDurMs := dur, stopSettle := afterStop)
  }

  predicate EntersUltrabeam(f: Feeds, doc: SwitchDoc) {
    doc.selected == Some(ULTRABEAM_PORT) && f.antSw.selected != ULTRABEAM_PORT
  }

  function OnSwitchState(c: Clock, f: Feeds, doc: SwitchDoc, now: nat): Feeds {
    f.(antSw := AntSwitch(f.antSw.statusOnline, true, doc.selected.GetOr(Unreported), doc.settled.GetOr(false)),
       mv := if EntersUltrabeam(f, doc) then StartSettle(c, f.mv, now, ULTRABEAM_SETTLE_MS, false) else f.mv)
  }

  predicate Moving(doc: CtrlDoc) { doc.moving.GetOr(true) }

  /** A controller report that ends a motion reported on this connection. */
  predicate IsStop(f: Feeds, doc: CtrlDoc) { f.ub.stateSeen && f.ub.moving && !Moving(doc) }

  predicate IsChange(f: Feeds, doc: CtrlDoc) {
    !f.ub.everSeen || doc.freqHz.GetOr(0) != f.ub.freqHz || doc.direction.GetOr("") != f.ub.direction
  }

  predicate BlindOpen(c: Clock, m: Motion, now: nat) { m.cmdValid && Elapsed(c, now, m.cmdMs) < ULTRABEAM_CMD_BLIND_MS }

  /** Settle and blind windows after a controller report. */
  function AfterReport(c: Clock, m: Motion, moving: bool, stopped: bool, changed: bool, now: nat): Motion {
    var g := m.(moveSeen := m.moveSeen || moving);
    if stopped && g.moveSeen then StartSettle(c, g, now, ULTRABEAM_STOP_SETTLE_MS, true).(cmdValid := false)
    else if stopped then StartSettle(c, g, now, ULTRABEAM_STOP_SETTLE_MS, false)
    else if changed && !moving then StartSettle(c, g, now, ULTRABEAM_SETTLE_MS, false)
    else g
  }

  function CtrlAfter(b: AntCtrl, doc: CtrlDoc): AntCtrl {
    AntCtrl(b.statusOnline, true, true, doc.deviceOnline.GetOr(false), Moving(doc), doc.freqHz.GetOr(0),
            doc.direction.GetOr(""), doc.retracted.GetOr(false))
  }

  /** A retracted:false report outside the blind window clears the latch. */
  function LatchAfter(c: Clock, m: Motion, doc: CtrlDoc, now: nat): Motion {
    m.(retracted := m.retracted && !(doc.retracted == Some(false) && !BlindOpen(c, m, now)))
  }

  function OnCtrlState(c: Clock, f: Feeds, doc: CtrlDoc, now: nat): Feeds {
    var m := AfterReport(c, f.mv, Moving(doc), IsStop(f, doc), IsChange(f, doc), now);
    f.(ub := CtrlAfter(f.ub, doc), mv := LatchAfter(c, m, doc, now))
  }

  function AbsDiff(a: nat, b: nat): nat { if a > b then a - b else b - a }

  /** The controller would move the elements for khz (integer-kHz deadband; 0 = position unknown). */
  predicate BeyondDeadband(khz: nat, ubFreqHz: nat) {
    ubFreqHz / 1000 == 0 || AbsDiff(khz, ubFreqHz / 1000) >= ULTRABEAM_DEADBAND_KHZ
  }

  /** The controller's band -> centre frequency map. */
  const UB_BAND_CENTRES: map<Band, nat> := map[
    Metres(20) := 14175, Metres(17) := 18118, Metres(15) := 21225,
    Metres(12) := 24940, Metres(10) := 28850, Metres(6) := 51000]

  /** The command will drive the Ultrabeam motors. */
  predicate CausesMotion(f: Feeds, a: CtrlAction) {
    match a
    case Frequency(hz) => BeyondDeadband(hz.GetOr(0) / 1000, f.ub.freqHz)
    case Direction => true
    case Mode => true
    case ToBand(b) => b in UB_BAND_CENTRES && BeyondDeadband(UB_BAND_CENTRES[b], f.ub.freqHz)
    case Retract => true
    case OtherAction => false
  }

  function Commanded(c: Clock, m: Motion, retract: bool, now: nat): Motion {
    StartSettle(c, m.(retracted := retract, cmdValid := true, cmdMs := now, moveSeen := false),
                now, ULTRABEAM_SETTLE_MS, false)
  }

  function OnCtrlCmd(c: Clock, f: Feeds, a: CtrlAction, now: nat): Feeds {
    if CausesMotion(f, a) then f.(mv := Commanded(c, f.mv, a.Retract?, now)) else f
  }

  function OnSelectState(f: Feeds, target: Option<Position>): Feeds { f.(antSel := f.antSel.(target := target.GetOr(Unreported))) }

  function OnPaState(f: Feeds, doc: PaDoc): Feeds {
    f.(pa := f.pa.(deviceOnline := doc.deviceOnline.GetOr(false), fault := doc.fault.GetOr(NoTelemetry),
                   keyedKnown := doc.keyedKnown, stateSeen := true))
  }

  function OnTunerState(f: Feeds, doc: TunerDoc): Feeds {
    f.(tuner := f.tuner.(deviceOnline := doc.deviceOnline.GetOr(false), settling := doc.settling.GetOr(true)))
  }

  // ---------------------------------------------------------------- gates

  predicate BeatOpen(c: Clock, r: Radio, now: nat) { r.freshValid && Elapsed(c, now, r.freshMs) < RADIO_HEARTBEAT_MS }
  predicate SettleOpen(c: Clock, m: Motion, now: nat) { m.settleValid && Elapsed(c, now, m.settleMs) < m.settleDurMs }
  predicate EdgeOpen(c: Clock, m: BandMemory, now: nat) { m.edgeValid && Elapsed(c, now, m.edgeMs) < BAND_CHANGE_HOLDOFF_MS }

  /** A window that has run out is closed for good, so the wrapping clock cannot re-enter it. */
  function Expired(c: Clock, f: Feeds, now: nat): Feeds {
    f.(radio := f.radio.(freshValid := BeatOpen(c, f.radio, now)),
       edge := f.edge.(edgeValid := EdgeOpen(c, f.edge, now)),
       mv := f.mv.(cmdValid := BlindOpen(c, f.mv, now), settleValid := SettleOpen(c, f.mv, now)))
  }

  predicate RadioLive(c: Clock, f: Feeds, now: nat) {
    f.radio.statusOnline && BeatOpen(c, f.radio, now) && f.radio.deviceOnline
  }
  predicate RadioHazard(c: Clock, f: Feeds, now: nat) {
    !RadioLive(c, f, now) || f.radio.tuning || !BandSafe(f.radio.band)
  }
  predicate SwitchOffline(f: Feeds) { !f.antSw.statusOnline || !f.antSw.stateSeen }
  predicate SwitchHazard(f: Feeds) {
    !SwitchOffline(f) && (f.antSw.selected.Unreported? || f.antSw.selected.Off? || !f.antSw.settled)
  }
  predicate InCircuit(f: Feeds) { f.antSw.stateSeen && f.antSw.selected == ULTRABEAM_PORT }
  predicate BeamRetracted(f: Feeds) { f.mv.retracted || (f.ub.stateSeen && f.ub.retracted) }
  predicate BeamUp(f: Feeds) { f.ub.statusOnline && f.ub.stateSeen && f.ub.deviceOnline }
  predicate OffFrequency(f: Feeds) { BeyondDeadband(f.radio.freqHz / 1000, f.ub.freqHz) }
  predicate InMove(c: Clock, f: Feeds, now: nat) { BlindOpen(c, f.mv, now) || f.ub.moving || SettleOpen(c, f.mv, now) }
  predicate PaOffline(f: Feeds) {
    !f.pa.statusOnline || !f.pa.stateSeen || !f.pa.deviceOnline || f.pa.fault.NoTelemetry? || !f.pa.keyedKnown
  }
  predicate PaFault(f: Feeds) { !PaOffline(f) && !f.pa.fault.NoFault? }
  predicate TunerTuning(f: Feeds) { f.tuner.statusOnline && f.tuner.deviceOnline && f.tuner.settling }
  predicate NotConverged(f: Feeds) {
    f.antSel.statusOnline && !f.antSel.target.Unreported? && f.antSw.stateSeen && f.antSel.target != f.antSw.selected
  }

  /** RF is, or is about to be, going somewhere unsafe: opens the relay at once. */
  predicate Hazard(c: Clock, f: Feeds, relayFault: bool, now: nat) {
    || relayFault || RadioHazard(c, f, now) || SwitchHazard(f)
    || (InCircuit(f) && (BeamRetracted(f) || BlindOpen(c, f.mv, now) || (BeamUp(f) && (f.ub.moving || OffFrequency(f)))))
    || PaFault(f) || TunerTuning(f)
  }

  /** Some input has not settled yet: the relay does not close, and under drive it does not open for it. */
  predicate Unready(c: Clock, f: Feeds, now: nat) {
    || SwitchOffline(f) || (InCircuit(f) && (!BeamUp(f) || SettleOpen(c, f.mv, now)))
    || PaOffline(f) || EdgeOpen(c, f.edge, now) || NotConverged(f)
  }

  /** Some gate fails that a move of the beam alone does not explain: no close dwell runs then. */
  predicate DwellBlocked(c: Clock, f: Feeds, relayFault: bool, now: nat) {
    || relayFault || RadioHazard(c, f, now) || SwitchOffline(f) || SwitchHazard(f)
    || (InCircuit(f) && (BeamRetracted(f) || !BeamUp(f) || (OffFrequency(f) && !InMove(c, f, now))))
    || PaOffline(f) || PaFault(f) || TunerTuning(f) || EdgeOpen(c, f.edge, now) || NotConverged(f)
  }

  /** A failing gate that is a fault (published as /state.error). */
  predicate Faulty(c: Clock, f: Feeds, relayFault: bool, now: nat) {
    relayFault || !RadioLive(c, f, now) || SwitchOffline(f) || (InCircuit(f) && !BeamUp(f)) || PaFault(f)
  }

  datatype Eval = Eval(hazard: bool, ready: bool, fault: bool, dwellBlocked: bool)

  function Evaluation(c: Clock, f: Feeds, relayFault: bool, now: nat): Eval {
    Eval(Hazard(c, f, relayFault, now), Unready(c, f, now), Faulty(c, f, relayFault, now), DwellBlocked(c, f, relayFault, now))
  }

  // ---------------------------------------------------------------- relay drive

  predicate Keyed(f: Feeds) { f.radio.stateSeen && !f.radio.rx }

  predicate DwellHolds(f: Feeds, e: Eval, enabled: bool, fault: bool) {
    enabled && !fault && !e.dwellBlocked && f.radio.stateSeen && f.radio.rx
  }

  /** The level relay 1 should take on this pass. */
  predicate Wanted(c: Clock, f: Feeds, d: Drive, e: Eval, enabled: bool, now: nat) {
    if !enabled || d.fault then false
    else if d.cmd then !(e.hazard || (e.ready && !Keyed(f)))
    else DwellHolds(f, e, enabled, d.fault) && !e.hazard && !e.ready
         && Elapsed(c, now, if d.closeOkValid then d.closeOkSinceMs else now) >= ARM_CLOSE_DWELL_MS
  }

  /** Dwell clock and command edge. */
  function Driven(c: Clock, f: Feeds, d: Drive, e: Eval, enabled: bool, now: nat): Drive {
    var ok := DwellHolds(f, e, enabled, d.fault);
    var want := Wanted(c, f, d, e, enabled, now);
    d.(closeOkValid := ok, closeOkSinceMs := if ok && !d.closeOkValid then now else d.closeOkSinceMs,
       cmd := want, writes := if want != d.cmd then d.writes + [want] else d.writes)
  }

  function Bump(n: nat): nat { if n < 255 then n + 1 else n }

  /** Readback check; rb is read after the drive, rb2 after a corrective write. */
  function Verified(d: Drive, rb: bool, rb2: bool): Drive {
    if d.cmd && !rb then
      if d.dropPending + 1 >= RELAY_DROP_CONFIRM then
        d.(stablePasses := 0, dropPending := 0, cmd := false, closeOkValid := false, writes := d.writes + [false],
           okCount := 0, dropCount := Bump(d.dropCount), fault := d.fault || Bump(d.dropCount) >= RELAY_MISMATCH_TRIP,
           readback := rb2)
      else d.(stablePasses := 0, dropPending := d.dropPending + 1, readback := true)
    else if !d.cmd && rb then
      var failed := d.(dropPending := 0, stablePasses := 0, writes := d.writes + [false], readback := rb2);
      if rb2 then failed.(okCount := 0, mismatchCount := Bump(d.mismatchCount),
                          fault := d.fault || Bump(d.mismatchCount) >= RELAY_MISMATCH_TRIP)
      else failed
    else
      var cleared := d.fault && d.okCount + 1 >= RELAY_MISMATCH_CLEAR;
      var counts := d.cmd && d.stablePasses < 65535;
      d.(dropPending := 0, mismatchCount := 0, readback := rb,
         okCount := if cleared then 0 else if d.fault then d.okCount + 1 else d.okCount,
         fault := d.fault && !cleared,
         stablePasses := if counts then d.stablePasses + 1 else d.stablePasses,
         dropCount := if counts && d.stablePasses + 1 >= RELAY_STABLE_PASSES then 0 else d.dropCount)
  }

  /** One loop pass: expire windows, evaluate the gates, drive and verify the relay. */
  function OnPass(c: Clock, s: State, enabled: bool, rb: bool, rb2: bool, now: nat): State {
    var f := Expired(c, s.f, now);
    var e := Evaluation(c, f, s.d.fault, now);
    State(f, Verified(Driven(c, f, s.d, e, enabled, now), rb, rb2))
  }

  // ---------------------------------------------------------------- events and runs

  /** Everything that reaches the interlock. A payload that does not parse is None. */
  datatype Event =
    | StatusMsg(feed: Feed, online: bool)
    | RadioState(radio: Option<RadioDoc>)
    | SwitchState(switch: Option<SwitchDoc>)
    | CtrlState(ctrl: Option<CtrlDoc>)
    | CtrlCmd(cmd: Option<CtrlAction>)
    | SelectState(target: Option<Option<Position>>)
    | PaState(pa: Option<PaDoc>)
    | TunerState(tuner: Option<TunerDoc>)
    | Invalidate
    | Pass(enabled: bool, rb: bool, rb2: bool)
    | OtaStart

  datatype Timed = At(at: nat, ev: Event)

  function StepFeeds(c: Clock, f: Feeds, ev: Event, now: nat): Feeds {
    match ev
    case StatusMsg(feed, online) => OnStatus(f, feed, online)
    case RadioState(doc) => if doc.Some? then OnRadioState(f, doc.value, now) else f
    case SwitchState(doc) => if doc.Some? then OnSwitchState(c, f, doc.value, now) else f
    case CtrlState(doc) => if doc.Some? then OnCtrlState(c, f, doc.value, now) else f
    case CtrlCmd(a) => if a.Some? then OnCtrlCmd(c, f, a.value, now) else f
    case SelectState(t) => if t.Some? then OnSelectState(f, t.value) else f
    case PaState(doc) => if doc.Some? then OnPaState(f, doc.value) else f
    case TunerState(doc) => if doc.Some? then OnTunerState(f, doc.value) else f
    case Invalidate => Invalidated(f)
    case Pass(_, _, _) => Expired(c, f, now)
    case OtaStart => f
  }

  function StepDrive(c: Clock, s: State, ev: Event, now: nat): Drive {
    match ev
    case RadioState(doc) => if doc.Some? && !IsRx(doc.value) then s.d.(closeOkValid := false) else s.d
    case Pass(enabled, rb, rb2) => OnPass(c, s, enabled, rb, rb2, now).d
    case OtaStart => s.d.(cmd := false, closeOkValid := false, writes := s.d.writes + [false])
    case _ => s.d
  }

  function StepAt(c: Clock, s: State, ev: Event, now: nat): State {
    State(StepFeeds(c, s.f, ev, now), StepDrive(c, s, ev, now))
  }

  function Step(c: Clock, s: State, e: Timed): State { StepAt(c, s, e.ev, Stamp(c, e.at)) }

  /** The state after the first i events of a run from power-up. */
  function After(c: Clock, run: seq<Timed>, i: nat): State
    requires i <= |run|
    decreases i
  {
    if i == 0 then INIT else Step(c, After(c, run, i - 1), run[i - 1])
  }

  ghost predicate Ordered(run: seq<Timed>) { forall i, j :: 0 <= i <= j < |run| ==> run[i].at <= run[j].at }

  /** The feeds the gates are judged on at pass i. */
  function PassFeeds(c: Clock, run: seq<Timed>, i: nat): Feeds
    requires i < |run| && run[i].ev.Pass?
  { Expired(c, After(c, run, i).f, Stamp(c, run[i].at)) }

  function PassEval(c: Clock, run: seq<Timed>, i: nat): Eval
    requires i < |run| && run[i].ev.Pass?
  { Evaluation(c, PassFeeds(c, run, i), After(c, run, i).d.fault, Stamp(c, run[i].at)) }
}
