/** The emission layer as it runs: fields updated in place by the jobs worker, one update per bus event. */
module FollowClient {
  import opened Options
  import opened Reconcile
  import opened Follow

  class Worker {
    const cfg: Config
    const idle: Idle
    var ins: Inputs
    var lastSelect: Port
    var lastFollowFreq: int
    var lastPaBand: Option<Band>
    var lastTunerInline: Option<bool>
    var follow: Controller
    var reextendPending: bool
    var reextendStallSince: Option<int>
    var reextendStallRetried: bool
    var radio: Radio
    var lastActivity: int
    var holds: map<string, StationHold>

    function Now(): Client reads this {
      Client(ins, Sent(lastSelect, lastFollowFreq, lastPaBand, lastTunerInline), follow,
             Reextend(reextendPending, reextendStallSince, reextendStallRetried), radio, lastActivity, holds)
    }

    /** What a whole step of the model leaves behind and sends. */
    ghost predicate Stepped(before: Client, e: Event, now: int, sent: Emission) reads this {
      Now() == Step(cfg, idle, before, e, now) && sent == Emitted(cfg, Mutated(before, e, idle, now))
    }

    constructor (c: Config, away: Idle, now: int)
      ensures cfg == c && idle == away && Now() == Init(now)
    {
      cfg, idle := c, away;
      ins := Inputs(false, NoBand, 0, false, false, NoRequest, NoPort, false, false);
      lastSelect, lastFollowFreq, lastPaBand, lastTunerInline := NoPort, 0, None, None;
      follow := Controller(false, false, false, false);
      reextendPending, reextendStallSince, reextendStallRetried := false, None, false;
      radio := Radio(false, false, false, 0);
      lastActivity, holds := now, map[];
    }

    /** Resolves the inputs as they now are and sends what the deduplication lets through. */
    method Update() returns (sent: Emission)
      modifies `lastSelect, `lastFollowFreq, `lastPaBand, `lastTunerInline
      ensures sent == Emitted(cfg, old(Now()))
      ensures Now() == old(Now()).(sent := Remembered(old(Now()).sent, sent))
    {
      hide Next;
      var act := Next(cfg, ins);
      var freq, band, inline := None, None, None;
      var select := Select(act.select);
      if act.freq.Some? && act.freq.value != 0 && act.freq.value != lastFollowFreq {
        lastFollowFreq := act.freq.value;
        freq := act.freq;
      }
      if act.setBand.Some? && act.setBand != lastPaBand {
        lastPaBand := act.setBand;
        band := act.setBand;
      }
      if act.inline.Some? && (lastTunerInline.None? || lastTunerInline.value != act.inline.value) {
        lastTunerInline := act.inline;
        inline := act.inline;
      }
      sent := Emission(select, freq, band, inline);
    }

    /** Against the switch's own report where there is one, else against what was last sent. */
    method Select(wanted: Option<Port>) returns (select: Option<Port>)
      modifies `lastSelect
      ensures select == SelectToSend(ins, old(lastSelect), wanted) && lastSelect == select.GetOr(old(lastSelect))
    {
      if wanted.None? { return None; }
      if ins.selected == NoPort {
        if wanted.value == lastSelect { return None; }
      } else if wanted.value == ins.selected {
        return None;
      }
      lastSelect := wanted.value;
      return wanted;
    }

    method CheckReextendStall(fire: bool, now: int)
      modifies `lastFollowFreq, `reextendStallSince, `reextendStallRetried
      ensures Now() == StallChecked(old(Now()), fire, now)
    {
      var stalled := reextendPending && !ins.locked && lastFollowFreq != 0
        && follow.seen && follow.online && follow.retracted && !follow.lockShown;
      if !stalled {
        reextendStallSince := None;
        return;
      }
      if reextendStallSince.None? { reextendStallSince := Some(now); }
      if !fire || reextendStallRetried || now - reextendStallSince.value < STALL_GRACE { return; }
      reextendStallRetried := true;
      reextendStallSince := None;
      lastFollowFreq := 0;
    }

    method OnAntMode(locked: bool, ground: bool, now: int) returns (sent: Emission)
      modifies this
      ensures Stepped(old(Now()), AntMode(locked, ground), now, sent)
    {
      hide Locked, Emitted;
      ApplyAntMode(locked, ground, now);
      sent := Update();
    }

    /** Records the antenna-mode lock; when it ends, what the lock held back is sent afresh. */
    method ApplyAntMode(locked: bool, ground: bool, now: int)
      modifies `ins, `lastFollowFreq, `lastSelect, `lastTunerInline, `reextendPending, `reextendStallSince, `reextendStallRetried
      ensures Now() == Locked(old(Now()), locked, ground, now)
    {
      hide StallChecked;
      var wasLocked := ins.locked;
      ins := ins.(locked := locked, ground := ground);
      if wasLocked && !ins.locked {
        lastFollowFreq, lastSelect, lastTunerInline := 0, NoPort, None;
        reextendPending, reextendStallRetried := true, false;
      }
      CheckReextendStall(false, now);
    }

    method OnFollowState(online: bool, retracted: bool, lockShown: bool, now: int) returns (sent: Emission)
      modifies this
      ensures Stepped(old(Now()), FollowState(online, retracted, lockShown), now, sent)
    {
      hide Reported, Emitted;
      ApplyFollowState(online, retracted, lockShown, now);
      sent := Update();
    }

    /** Re-arms the unlock's re-extend. */
    method ApplyFollowState(online: bool, retracted: bool, lockShown: bool, now: int)
      modifies `follow, `reextendPending, `lastFollowFreq, `reextendStallSince, `reextendStallRetried
      ensures Now() == Reported(old(Now()), online, retracted, lockShown, now)
    {
      hide StallChecked;
      var cameBack := follow.seen && !follow.online && online;
      follow := Controller(true, online, retracted, lockShown);
      if reextendPending && !ins.locked {
        if online && !retracted { reextendPending := false; }
        else if cameBack && retracted && lastFollowFreq != 0 { lastFollowFreq := 0; }
      }
      CheckReextendStall(false, now);
    }

    method MarkActive(now: int)
      modifies `ins, `lastActivity
      ensures Now() == MarkedActive(old(Now()), now)
    {
      lastActivity := now;
      ins := ins.(inactive := false);
    }

    /** A live hold of any configured slot is presence; called on every hold message and every idle check. */
    method ApplyHolds(now: int)
      modifies `ins, `lastActivity
      ensures Now() == HoldsApplied(old(Now()), idle.slots, now)
    {
      var held := false;
      for i := 0 to |idle.slots|
        invariant held <==> exists j :: 0 <= j < i && HoldOf(Now(), idle.slots[j]).Live(now)
      {
        if idle.slots[i] in holds && holds[idle.slots[i]].Live(now) { held := true; }
      }
      if held { MarkActive(now); }
    }

    method CheckIdle(now: int) returns (sent: Emission)
      modifies this
      ensures Stepped(old(Now()), IdleCheck, now, sent)
    {
      hide StallChecked, Emitted, Held;
      ApplyHolds(now);
      if now - lastActivity >= idle.timeout { ins := ins.(inactive := true); }
      CheckReextendStall(true, now);
      sent := Update();
    }

    method OnHoldStatus(slot: string, online: bool, now: int) returns (sent: Emission)
      modifies this
      ensures Stepped(old(Now()), HoldStatus(slot, online), now, sent)
    {
      hide Emitted, Held;
      var h := if slot in holds then holds[slot] else NO_HOLD;
      holds := holds[slot := h.(online := online)];
      ApplyHolds(now);
      sent := Update();
    }

    method OnHoldState(slot: string, until: Option<int>, received: int, now: int) returns (sent: Emission)
      modifies this
      ensures Stepped(old(Now()), HoldState(slot, until, received), now, sent)
    {
      hide Emitted, Held;
      var h := if slot in holds then holds[slot] else NO_HOLD;
      holds := holds[slot := h.(held := until.Some?, until := until.GetOr(0), received := received)];
      ApplyHolds(now);
      sent := Update();
    }

    method OnRadioState(band: Band, freqHz: int, tx: bool, deviceOnline: bool, now: int) returns (sent: Emission)
      modifies this
      ensures Stepped(old(Now()), RadioState(band, freqHz, tx, deviceOnline), now, sent)
    {
      hide RadioHeard, Emitted;
      ApplyRadioState(band, freqHz, tx, deviceOnline, now);
      sent := Update();
    }

    /** A VFO move or a transmission on a live radio link is activity. */
    method ApplyRadioState(band: Band, freqHz: int, tx: bool, deviceOnline: bool, now: int)
      modifies `ins, `radio, `lastActivity
      ensures Now() == RadioHeard(old(Now()), band, freqHz, tx, deviceOnline, now)
    {
      var live := deviceOnline && freqHz > 0;
      var vfo := live && radio.liveFreqHz != 0 && freqHz != radio.liveFreqHz;
      if vfo || (radio.seen && deviceOnline && tx) { MarkActive(now); }
      radio := radio.(deviceOnline := deviceOnline, seen := true);
      if live || freqHz == 0 { radio := radio.(liveFreqHz := freqHz); }
      ins := ins.(band := band, freqHz := freqHz, tx := tx, radioOnline := radio.bridgeOnline && radio.deviceOnline);
    }

    method OnRadioStatus(bridge: bool, now: int) returns (sent: Emission)
      modifies this
      ensures Stepped(old(Now()), RadioStatus(bridge), now, sent)
    {
      hide Emitted;
      radio := radio.(bridgeOnline := bridge);
      ins := ins.(radioOnline := radio.bridgeOnline && radio.deviceOnline);
      sent := Update();
    }

    method OnSwitchState(selected: Port, now: int) returns (sent: Emission)
      modifies this
      ensures Stepped(old(Now()), SwitchState(selected), now, sent)
    {
      hide Emitted;
      ins := ins.(selected := selected);
      sent := Update();
    }

    method OnOperator(r: Request, now: int) returns (sent: Emission)
      modifies this
      ensures Stepped(old(Now()), Operator(r), now, sent)
    {
      hide Emitted;
      ins := ins.(request := r);
      if HoldActive(r) { MarkActive(now); }
      sent := Update();
    }
  }
}
