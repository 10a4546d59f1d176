/** The interlock as the firmware runs it: globals updated in place on the wrapping clock.
    Every operation is proved to be the model's step. */
module ArmFirmware {
  import opened Options
  import opened ArmBands
  import opened ArmModel

  /** The gate scan. It goes through the gates in order and accumulates whether one of each class
      fails (the firmware also keeps the first failing gate's name, for display). */
  method ScanGates(f: Feeds, relayFault: bool, now: u32) returns (e: Eval)
    ensures e == Evaluation(Wrapping, f, relayFault, now)
  {
    var hazard, ready, fault, blocked := relayFault, false, relayFault, relayFault;

    var live := f.radio.freshValid && (now - f.radio.freshMs) % WRAP < RADIO_HEARTBEAT_MS;
    if !f.radio.statusOnline || !live || !f.radio.deviceOnline {
      hazard, fault, blocked := true, true, true;
    } else {
      if f.radio.tuning { hazard, blocked := true, true; }
      if !BandSafe(f.radio.band) { hazard, blocked := true, true; }
    }
    assert hazard == blocked == (relayFault || RadioHazard(Wrapping, f, now));

    if !f.antSw.statusOnline || !f.antSw.stateSeen {
      ready, fault, blocked := true, true, true;
    } else if f.antSw.selected == Unreported || f.antSw.selected == Off {
      hazard, blocked := true, true;
    } else if !f.antSw.settled {
      hazard, blocked := true, true;
    }

    var hazardBeam, readyBeam, faultBeam, blockedBeam := ScanBeam(f, now);
    hazard, ready, fault, blocked := hazard || hazardBeam, ready || readyBeam, fault || faultBeam, blocked || blockedBeam;

    if !f.pa.statusOnline || !f.pa.stateSeen || !f.pa.deviceOnline || f.pa.fault == NoTelemetry || !f.pa.keyedKnown {
      ready, blocked := true, true;
    } else if f.pa.fault != NoFault {
      hazard, fault, blocked := true, true, true;
    }

    if f.tuner.statusOnline && f.tuner.deviceOnline && f.tuner.settling { hazard, blocked := true, true; }

    if f.edge.edgeValid && (now - f.edge.edgeMs) % WRAP < BAND_CHANGE_HOLDOFF_MS { ready, blocked := true, true; }
    if f.antSel.statusOnline && f.antSel.target != Unreported && f.antSw.stateSeen && f.antSel.target != f.antSw.selected {
      ready, blocked := true, true;
    }
    e := Eval(hazard, ready, fault, blocked);
  }

  /** The Ultrabeam gates, judged only while it is the antenna in circuit. */
  method ScanBeam(f: Feeds, now: u32) returns (hazard: bool, ready: bool, fault: bool, blocked: bool)
    ensures hazard == (InCircuit(f) && (BeamRetracted(f) || BlindOpen(Wrapping, f.mv, now)
                       || (BeamUp(f) && (f.ub.moving || OffFrequency(f)))))
    ensures ready == (InCircuit(f) && (!BeamUp(f) || SettleOpen(Wrapping, f.mv, now)))
    ensures fault == (InCircuit(f) && !BeamUp(f))
    ensures blocked == (InCircuit(f) && (BeamRetracted(f) || !BeamUp(f)
                        || (OffFrequency(f) && !InMove(Wrapping, f, now))))
  {
    hazard, ready, fault, blocked := false, false, false, false;
    if f.antSw.stateSeen && f.antSw.selected == ULTRABEAM_PORT {
      if f.mv.retracted || (f.ub.stateSeen && f.ub.retracted) { hazard, blocked := true, true; }
      var cmdBlind := f.mv.cmdValid && (now - f.mv.cmdMs) % WRAP < ULTRABEAM_CMD_BLIND_MS;
      var settling := f.mv.settleValid && (now - f.mv.settleMs) % WRAP < f.mv.settleDurMs;
      var inMove := cmdBlind || f.ub.moving || settling;
      if cmdBlind { hazard := true; }
      if !f.ub.statusOnline || !f.ub.stateSeen || !f.ub.deviceOnline {
        ready, fault, blocked := true, true, true;
      } else {
        if f.ub.moving { hazard := true; }
        var khz := f.ub.freqHz / 1000;
        if khz == 0 || AbsDiff(f.radio.freqHz / 1000, khz) >= ULTRABEAM_DEADBAND_KHZ {
          hazard := true;
          if !inMove { blocked := true; }
        }
      }
      if settling { ready := true; }
    }
  }

  /** The radio record after a radio/state message. */
  method NextRadio(radio: Radio, doc: RadioDoc, nb: Band, now: u32) returns (r: Radio)
    ensures r == RadioAfter(radio, doc, nb, now)
  {
    r := radio.(stateSeen := true, deviceOnline := doc.deviceOnline.GetOr(false), tuning := doc.tuning.GetOr(true),
                rx := doc.rx == Some(true), freqHz := doc.freqHz.GetOr(0), band := nb);
    if r.msgsSinceSub < 2 { r := r.(msgsSinceSub := r.msgsSinceSub + 1); }
    if r.msgsSinceSub >= 2 && doc.ts.Some? && doc.ts != r.lastTs { r := r.(freshValid := true, freshMs := now); }
    r := r.(lastTs := doc.ts);
  }

  /** Whether the command makes the controller move the elements. */
  method DrivesMotors(action: CtrlAction, ubFreqHz: u32) returns (motion: bool)
    ensures forall f: Feeds :: f.ub.freqHz == ubFreqHz ==> motion == CausesMotion(f, action)
  {
    var cur := ubFreqHz / 1000;
    motion := false;
    match action {
      case Frequency(hz) =>
        motion := cur == 0 || AbsDiff(hz.GetOr(0) / 1000, cur) >= ULTRABEAM_DEADBAND_KHZ;
      case Direction => motion := true;
      case Mode => motion := true;
      case ToBand(b) =>
        if b in UB_BAND_CENTRES { motion := cur == 0 || AbsDiff(UB_BAND_CENTRES[b], cur) >= ULTRABEAM_DEADBAND_KHZ; }
      case Retract => motion := true;
      case OtherAction =>
    }
  }

  class Interlock {
    var radio: Radio
    var antSw: AntSwitch
    var ub: AntCtrl
    var antSel: AntSelect
    var pa: Pa
    var tuner: Tuner
    var edge: BandMemory   // band-change hold-off
    var mv: Motion         // Ultrabeam windows and latches
    var relayCmd: bool
    var relayReadback: bool
    var relayFault: bool
    var relayMismatchCount: nat
    var relayOkCount: nat
    var relayDropPending: nat
    var relayDropCount: nat
    var relayStablePasses: nat
    var closeOkValid: bool
    var closeOkSinceMs: nat
    var written: seq<bool>  // every level written to relay 1

    function Inputs(): Feeds reads this {
      Feeds(radio, antSw, ub, antSel, pa, tuner, edge, mv)
    }

    function Relay(): Drive reads this {
      Drive(relayCmd, relayReadback, relayFault, relayMismatchCount, relayOkCount, relayDropPending, relayDropCount,
            relayStablePasses, closeOkValid, closeOkSinceMs, written)
    }

    function Now(): State reads this { State(Inputs(), Relay()) }

    constructor ()
      ensures Now() == INIT
    {
      radio, antSw, ub := INIT_FEEDS.radio, INIT_FEEDS.antSw, INIT_FEEDS.ub;
      antSel, pa, tuner := INIT_FEEDS.antSel, INIT_FEEDS.pa, INIT_FEEDS.tuner;
      edge, mv := INIT_FEEDS.edge, INIT_FEEDS.mv;
      relayCmd, relayReadback, relayFault := false, false, false;
      relayMismatchCount, relayOkCount, relayDropPending, relayDropCount, relayStablePasses := 0, 0, 0, 0, 0;
      closeOkValid, closeOkSinceMs, written := false, 0, [];
    }

    method Invalidate()
      modifies `radio, `antSw, `ub, `antSel, `pa, `tuner
      ensures Inputs() == Invalidated(old(Inputs()))
      ensures Relay() == old(Relay())
    {
      hide LostRadio, LostSwitch, LostCtrl;
      ClearRadio();
      ClearAntenna();
      ClearStation();
    }

    method ClearRadio()
      modifies `radio
      ensures radio == LostRadio(old(radio))
    {
      radio := radio.(statusOnline := false, stateSeen := false, deviceOnline := false, tuning := true, rx := false,
                      msgsSinceSub := 0, freshValid := false);
    }

    method ClearAntenna()
      modifies `antSw, `ub
      ensures antSw == LostSwitch(old(antSw)) && ub == LostCtrl(old(ub))
    {
      antSw := antSw.(statusOnline := false, stateSeen := false, settled := false);
      ub := ub.(statusOnline := false, stateSeen := false, deviceOnline := false, moving := true);
    }

    method ClearStation()
      modifies `antSel, `pa, `tuner
      ensures antSel == INIT_FEEDS.antSel && pa == INIT_FEEDS.pa && tuner == INIT_FEEDS.tuner
    {
      antSel := AntSelect(false, Unreported);
      pa := Pa(false, false, false, NoTelemetry, false);
      tuner := Tuner(false, false, false);
    }

    method OnStatus(feed: Feed, online: bool)
      modifies `radio, `antSw, `ub, `antSel, `pa, `tuner
      ensures Inputs() == ArmModel.OnStatus(old(Inputs()), feed, online)
      ensures Relay() == old(Relay())
    {
      match feed
      case RadioFeed => radio := radio.(statusOnline := online);
      case SwitchFeed => antSw := antSw.(statusOnline := online);
      case CtrlFeed => ub := ub.(statusOnline := online);
      case SelectFeed => antSel := antSel.(statusOnline := online);
      case PaFeed => pa := pa.(statusOnline := online);
      case TunerFeed => tuner := tuner.(statusOnline := online);
    }

    method StartUbSettle(now: u32, dur: nat, afterStop: bool)
      modifies `mv
      ensures mv == StartSettle(Wrapping, old(mv), now, dur, afterStop)
    {
      if !afterStop && mv.settleValid && !mv.stopSettle {
        var elapsed := (now - mv.settleMs) % WRAP;
        if elapsed < mv.settleDurMs && mv.settleDurMs - elapsed >= dur { return; }
      }
      mv := mv.(settleValid := true, settleMs := now, settleDurMs := dur, stopSettle := afterStop);
    }

    method OnRadioState(payload: Option<RadioDoc>, now: u32)
      modifies `radio, `edge, `closeOkValid
      ensures Inputs() == if payload.Some? then ArmModel.OnRadioState(old(Inputs()), payload.value, now) else old(Inputs())
      ensures Relay() == if payload.Some? && !IsRx(payload.value) then old(Relay()).(closeOkValid := false) else old(Relay())
    {
      hide BandForFreq;
      if payload.None? { return; }
      var doc := payload.value;
      var nb := ScanBand(doc.freqHz.GetOr(0), radio.band);
      NoteBand(nb, now);
      radio := NextRadio(radio, doc, nb, now);
      if !radio.rx { closeOkValid := false; }
    }

    method NoteBand(nb: Band, now: u32)
      modifies `edge
      ensures edge == BandNoted(old(edge), nb, now)
    {
      if nb != NoBand && nb != edge.lastHamBand {
        if edge.lastHamBand != NoBand { edge := edge.(edgeValid := true, edgeMs := now); }
        edge := edge.(lastHamBand := nb);
      }
    }

    method OnSwitchState(payload: Option<SwitchDoc>, now: u32)
      modifies `antSw, `mv
      ensures Inputs() == if payload.Some? then ArmModel.OnSwitchState(Wrapping, old(Inputs()), payload.value, now) else old(Inputs())
      ensures Relay() == old(Relay())
    {
      if payload.None? { return; }
      var sel := payload.value.selected.GetOr(Unreported);
      if sel == ULTRABEAM_PORT && antSw.selected != ULTRABEAM_PORT { StartUbSettle(now, ULTRABEAM_SETTLE_MS, false); }
      antSw := antSw.(selected := sel);
      antSw := antSw.(settled := payload.value.settled.GetOr(false), stateSeen := true);
    }

    method OnCtrlState(payload: Option<CtrlDoc>, now: u32)
      modifies `ub, `mv
      ensures Inputs() == if payload.Some? then ArmModel.OnCtrlState(Wrapping, old(Inputs()), payload.value, now) else old(Inputs())
      ensures Relay() == old(Relay())
    {
      hide AfterReport, LatchAfter;
      if payload.None? { return; }
      var doc := payload.value;
      var moving := doc.moving.GetOr(true);
      var changed := !ub.everSeen || doc.freqHz.GetOr(0) != ub.freqHz || doc.direction.GetOr("") != ub.direction;
      var stopped := ub.stateSeen && ub.moving && !moving;
      NoteMotion(moving, stopped, changed, now);
      ub := ub.(deviceOnline := doc.deviceOnline.GetOr(false), moving := moving, freqHz := doc.freqHz.GetOr(0),
                direction := doc.direction.GetOr(""), retracted := doc.retracted.GetOr(false),
                stateSeen := true, everSeen := true);
      ClearLatch(doc, now);
    }

    method ClearLatch(doc: CtrlDoc, now: u32)
      modifies `mv
      ensures mv == LatchAfter(Wrapping, old(mv), doc, now)
    {
      if mv.retracted && doc.retracted.Some? && !doc.retracted.value
         && !(mv.cmdValid && (now - mv.cmdMs) % WRAP < ULTRABEAM_CMD_BLIND_MS) {
        mv := mv.(retracted := false);
      }
    }

    /** The settle and blind windows after a controller report. */
    method NoteMotion(moving: bool, stopped: bool, changed: bool, now: u32)
      modifies `mv
      ensures mv == AfterReport(Wrapping, old(mv), moving, stopped, changed, now)
    {
      if moving { mv := mv.(moveSeen := true); }
      if stopped && mv.moveSeen {
        StartUbSettle(now, ULTRABEAM_STOP_SETTLE_MS, true);
        mv := mv.(cmdValid := false);
      } else if stopped {
        StartUbSettle(now, ULTRABEAM_STOP_SETTLE_MS, false);
      } else if changed && !moving {
        StartUbSettle(now, ULTRABEAM_SETTLE_MS, false);
      }
    }

    method OnCtrlCmd(payload: Option<CtrlAction>, now: u32)
      modifies `mv
      ensures Inputs() == if payload.Some? then ArmModel.OnCtrlCmd(Wrapping, old(Inputs()), payload.value, now) else old(Inputs())
      ensures Relay() == old(Relay())
    {
      if payload.None? { return; }
      hide CausesMotion, StartSettle;
      var action := payload.value;
      var motion := DrivesMotors(action, ub.freqHz);
      assert motion == CausesMotion(Inputs(), action);
      if action.Retract? {
        mv := mv.(retracted := true);
      } else if motion {
        mv := mv.(retracted := false);
      }
      if motion {
        mv := mv.(cmdValid := true, cmdMs := now, moveSeen := false);
        StartUbSettle(now, ULTRABEAM_SETTLE_MS, false);
      }
    }

    method OnSelectState(payload: Option<Option<Position>>)
      modifies `antSel
      ensures Inputs() == if payload.Some? then ArmModel.OnSelectState(old(Inputs()), payload.value) else old(Inputs())
      ensures Relay() == old(Relay())
    {
      if payload.Some? { antSel := antSel.(target := payload.value.GetOr(Unreported)); }
    }

    method OnPaState(payload: Option<PaDoc>)
      modifies `pa
      ensures Inputs() == if payload.Some? then ArmModel.OnPaState(old(Inputs()), payload.value) else old(Inputs())
      ensures Relay() == old(Relay())
    {
      if payload.None? { return; }
      pa := pa.(deviceOnline := payload.value.deviceOnline.GetOr(false), fault := payload.value.fault.GetOr(NoTelemetry));
      pa := pa.(keyedKnown := payload.value.keyedKnown, stateSeen := true);
    }

    method OnTunerState(payload: Option<TunerDoc>)
      modifies `tuner
      ensures Inputs() == if payload.Some? then ArmModel.OnTunerState(old(Inputs()), payload.value) else old(Inputs())
      ensures Relay() == old(Relay())
    {
      if payload.None? { return; }
      tuner := tuner.(deviceOnline := payload.value.deviceOnline.GetOr(false));
      tuner := tuner.(settling := payload.value.settling.GetOr(true));
    }

    method ExpireWindows(now: u32)
      modifies `mv, `edge, `radio
      ensures Inputs() == Expired(Wrapping, old(Inputs()), now)
    {
      ExpireMotion(now);
      if edge.edgeValid && (now - edge.edgeMs) % WRAP >= BAND_CHANGE_HOLDOFF_MS { edge := edge.(edgeValid := false); }
      if radio.freshValid && (now - radio.freshMs) % WRAP >= RADIO_HEARTBEAT_MS { radio := radio.(freshValid := false); }
    }

    method ExpireMotion(now: u32)
      modifies `mv
      ensures mv == Expired(Wrapping, old(Inputs()), now).mv
    {
      if mv.cmdValid && (now - mv.cmdMs) % WRAP >= ULTRABEAM_CMD_BLIND_MS { mv := mv.(cmdValid := false); }
      if mv.settleValid && (now - mv.settleMs) % WRAP >= mv.settleDurMs { mv := mv.(settleValid := false); }
    }

    method Evaluate(now: u32) returns (e: Eval)
      modifies `mv, `edge, `radio
      ensures Inputs() == Expired(Wrapping, old(Inputs()), now)
      ensures e == Evaluation(Wrapping, Inputs(), relayFault, now)
    {
      ExpireWindows(now);
      e := ScanGates(Inputs(), relayFault, now);
    }

    /** The dwell clock and the command edge. */
    method DriveRelay(e: Eval, enabled: bool, now: u32)
      modifies `closeOkValid, `closeOkSinceMs, `relayCmd, `written
      ensures Relay() == Driven(Wrapping, old(Inputs()), old(Relay()), e, enabled, now)
    {
      var gatesOk := !e.hazard && !e.ready;
      var dwellOk := enabled && !relayFault && !e.dwellBlocked && radio.stateSeen && radio.rx;
      var closeOk := dwellOk && gatesOk;
      if !dwellOk {
        closeOkValid := false;
      } else if !closeOkValid {
        closeOkValid := true;
        closeOkSinceMs := now;
      }
      var want;
      if !enabled || relayFault {
        want := false;
      } else if relayCmd {
        var keyed := radio.stateSeen && !radio.rx;
        want := !(e.hazard || (e.ready && !keyed));
      } else {
        want := closeOk && closeOkValid && (now - closeOkSinceMs) % WRAP >= ARM_CLOSE_DWELL_MS;
      }
      if want != relayCmd { written := written + [want]; }
      relayCmd := want;
    }

    /** Evaluate the gates and drive relay 1. rb1 and rb2 are what the expander reports after the
        drive and after a corrective write. */
    method Recompute(enabled: bool, now: u32, rb1: bool, rb2: bool) returns (e: Eval)
      modifies this
      ensures Now() == OnPass(Wrapping, old(Now()), enabled, rb1, rb2, now)
      ensures e == Evaluation(Wrapping, Inputs(), old(relayFault), now)
    {
      hide Hazard, Unready, Faulty, DwellBlocked, Driven, Verified, Expired;
      e := Evaluate(now);
      DriveRelay(e, enabled, now);
      VerifyRelay(rb1, rb2);
    }

    method VerifyRelay(rb1: bool, rb2: bool)
      modifies `relayCmd, `relayReadback, `relayFault, `relayMismatchCount, `relayOkCount, `relayDropPending,
               `relayDropCount, `relayStablePasses, `closeOkValid, `written
      ensures Relay() == Verified(old(Relay()), rb1, rb2)
    {
      var rb := rb1;
      if relayCmd && !rb {
        relayStablePasses := 0;
        relayDropPending := relayDropPending + 1;
        if relayDropPending >= RELAY_DROP_CONFIRM {
          relayDropPending := 0;
          relayCmd := false;
          closeOkValid := false;
          written := written + [false];
          rb := rb2;
          relayOkCount := 0;
          if relayDropCount < 255 { relayDropCount := relayDropCount + 1; }
          if relayDropCount >= RELAY_MISMATCH_TRIP { relayFault := true; }
        } else {
          rb := true;
        }
      } else if !relayCmd && rb {
        RewriteOpen(rb2);
        rb := rb2;
      } else {
        CountConsistent(rb);
      }
      relayReadback := rb;
    }

    /** A relay meant to be open reads closed: it is written open again, and counted if that does not help. */
    method RewriteOpen(rb2: bool)
      requires !relayCmd
      modifies `relayFault, `relayMismatchCount, `relayOkCount, `relayDropPending, `relayStablePasses, `written
      ensures Relay() == Verified(old(Relay()), true, rb2).(readback := relayReadback)
    {
      relayDropPending := 0;
      relayStablePasses := 0;
      written := written + [false];
      if rb2 {
        relayOkCount := 0;
        if relayMismatchCount < 255 { relayMismatchCount := relayMismatchCount + 1; }
        if relayMismatchCount >= RELAY_MISMATCH_TRIP { relayFault := true; }
      }
    }

    /** The relay reads as commanded: faults clear and drops are forgiven in time. */
    method CountConsistent(rb: bool)
      requires relayCmd == rb
      modifies `relayFault, `relayMismatchCount, `relayOkCount, `relayDropPending, `relayDropCount, `relayStablePasses
      ensures Relay() == Verified(old(Relay()), rb, rb).(readback := relayReadback)
    {
      relayDropPending := 0;
      relayMismatchCount := 0;
      if relayFault {
        relayOkCount := relayOkCount + 1;
        if relayOkCount >= RELAY_MISMATCH_CLEAR {
          relayOkCount := 0;
          relayFault := false;
        }
      }
      if relayCmd && relayStablePasses < 65535 {
        relayStablePasses := relayStablePasses + 1;
        if relayStablePasses >= RELAY_STABLE_PASSES { relayDropCount := 0; }
      }
    }

    /** An OTA update begins: open the relay before the reboot. */
    method OtaStart()
      modifies `relayCmd, `closeOkValid, `written
      ensures Inputs() == old(Inputs())
      ensures Relay() == old(Relay()).(cmd := false, closeOkValid := false, writes := old(written) + [false])
    {
      written := written + [false];
      relayCmd := false;
      closeOkValid := false;
    }

    /** Route one event, as the loop and the broker callback do. */
    method Dispatch(ev: Event, now: u32)
      modifies this
      ensures Now() == StepAt(Wrapping, old(Now()), ev, now)
    {
      hide Invalidated, ArmModel.OnStatus, ArmModel.OnRadioState, ArmModel.OnSwitchState, ArmModel.OnCtrlState;
      hide ArmModel.OnCtrlCmd, ArmModel.OnSelectState, ArmModel.OnPaState, ArmModel.OnTunerState, Expired, Evaluation;
      hide Driven, Verified;
      match ev
      case StatusMsg(feed, online) => OnStatus(feed, online);
      case RadioState(p) => OnRadioState(p, now);
      case SwitchState(p) => OnSwitchState(p, now);
      case CtrlState(p) => OnCtrlState(p, now);
      case CtrlCmd(p) => OnCtrlCmd(p, now);
      case SelectState(p) => OnSelectState(p);
      case PaState(p) => OnPaState(p);
      case TunerState(p) => OnTunerState(p);
      case Invalidate => Invalidate();
      case Pass(enabled, rb1, rb2) => var e := Recompute(enabled, now, rb1, rb2);
      case OtaStart => OtaStart();
    }
  }
}
