/** The emission layer of the antenna reconciler: what each bus event makes it send, with the deduplication that
    must be reset exactly right when the antenna lock ends. Times are in milliseconds. */
module Follow {
  import opened Options
  import opened Reconcile

  const STALL_GRACE := 15000

  /** The band-follow controller as last reported. */
  datatype Controller = Controller(seen: bool, online: bool, retracted: bool, lockShown: bool)

  /** What is left to do after an unlock: whether the elements are still to be seen out, since when the controller
      has looked stalled, and whether this unlock's one retry is spent. */
  datatype Reextend = Reextend(pending: bool, stallSince: Option<int>, retried: bool)

  /** The last value sent of each kind; a frequency of 0 and a port of NoPort mean none. */
  datatype Sent = Sent(select: Port, freq: int, band: Option<Band>, inline: Option<bool>)

  datatype Radio = Radio(bridgeOnline: bool, deviceOnline: bool, seen: bool, liveFreqHz: int)

  const MAX_HOLD_TTL := 600000

  /** What a station-hold slot last reported; until and received are the hold's claimed end and when it came in. */
  datatype StationHold = StationHold(online: bool, held: bool, until: int, received: int) {
    /** A hold must keep itself alive: published by a slot that is online, not past its end, and refreshed in ten minutes. */
    predicate Live(now: int) {
      online && held && now < if until < received + MAX_HOLD_TTL then until else received + MAX_HOLD_TTL
    }
  }

  const NO_HOLD := StationHold(false, false, 0, 0)

  datatype Client = Client(ins: Inputs, sent: Sent, controller: Controller, re: Reextend, radio: Radio, lastActivity: int,
                           holds: map<string, StationHold>)

  /** The walk-away timeout and the slots whose holds count as presence. */
  datatype Idle = Idle(timeout: int, slots: seq<string>)

  function Init(now: int): Client {
    Client(Inputs(false, NoBand, 0, false, false, NoRequest, NoPort, false, false), Sent(NoPort, 0, None, None),
           Controller(false, false, false, false), Reextend(false, None, false), Radio(false, false, false, 0), now, map[])
  }

  /** One update's messages to the switch, the followed controller, the amplifier and the tuner. */
  datatype Emission = Emission(select: Option<Port>, freq: Option<int>, band: Option<Band>, inline: Option<bool>)

  // ------------------------------------------------------------- emitting

  function SelectToSend(i: Inputs, last: Port, wanted: Option<Port>): Option<Port> {
    if wanted.None? then None
    else if i.selected == NoPort then if wanted.value != last then wanted else None
    else if wanted.value != i.selected then wanted
    else None
  }

  function ToSend(i: Inputs, last: Sent, a: Actions): Emission {
    Emission(SelectToSend(i, last.select, a.select),
             if a.freq.Some? && a.freq.value != 0 && a.freq.value != last.freq then a.freq else None,
             if a.setBand.Some? && a.setBand != last.band then a.setBand else None,
             if a.inline.Some? && a.inline != last.inline then a.inline else None)
  }

  function Remembered(last: Sent, e: Emission): Sent {
    Sent(e.select.GetOr(last.select), e.freq.GetOr(last.freq), if e.band.Some? then e.band else last.band,
         if e.inline.Some? then e.inline else last.inline)
  }

  // ------------------------------------------------------------- what each event changes

  /** The controller looks stalled after an unlock: frequency sent, controller online and unlocked, elements in. */
  predicate Stalled(k: Client) {
    k.re.pending && !k.ins.locked && k.sent.freq != 0
    && k.controller.seen && k.controller.online && k.controller.retracted && !k.controller.lockShown
  }

  predicate StallFires(k: Client, now: int) {
    Stalled(k) && !k.re.retried && now - k.re.stallSince.GetOr(now) >= STALL_GRACE
  }

  function StallChecked(k: Client, tick: bool, now: int): Client {
    if !Stalled(k) then k.(re := k.re.(stallSince := None))
    else if tick && StallFires(k, now) then k.(re := k.re.(stallSince := None, retried := true), sent := k.sent.(freq := 0))
    else k.(re := k.re.(stallSince := Some(k.re.stallSince.GetOr(now))))
  }

  predicate Unlocks(k: Client, locked: bool) { k.ins.locked && !locked }

  function Locked(k: Client, locked: bool, ground: bool, now: int): Client {
    var t := k.(ins := k.ins.(locked := locked, ground := ground));
    StallChecked(if !Unlocks(k, locked) then t
                 else t.(sent := t.sent.(freq := 0, select := NoPort, inline := None),
                         re := t.re.(pending := true, retried := false)), false, now)
  }

  /** The controller reports itself back with the elements still in while an unlock's re-extend is pending. */
  predicate CameBack(k: Client, online: bool, retracted: bool) {
    k.controller.seen && !k.controller.online && online && retracted && k.re.pending && !k.ins.locked
  }

  function Reported(k: Client, online: bool, retracted: bool, lockShown: bool, now: int): Client {
    var t := k.(controller := Controller(true, online, retracted, lockShown));
    StallChecked(if !k.re.pending || k.ins.locked then t
                 else if online && !retracted then t.(re := t.re.(pending := false))
                 else if CameBack(k, online, retracted) then t.(sent := t.sent.(freq := 0))
                 else t, false, now)
  }

  function MarkedActive(k: Client, now: int): Client {
    k.(ins := k.ins.(inactive := false), lastActivity := now)
  }

  function HoldOf(k: Client, slot: string): StationHold { if slot in k.holds then k.holds[slot] else NO_HOLD }

  /** Some configured slot holds the station. */
  predicate Held(k: Client, slots: seq<string>, now: int) { exists i :: 0 <= i < |slots| && HoldOf(k, slots[i]).Live(now) }

  function HoldsApplied(k: Client, slots: seq<string>, now: int): Client {
    if Held(k, slots, now) then MarkedActive(k, now) else k
  }

  function HoldNoted(k: Client, slot: string, h: StationHold): Client { k.(holds := k.holds[slot := h]) }

  function IdleChecked(k: Client, idle: Idle, now: int): Client {
    var t := HoldsApplied(k, idle.slots, now);
    var u := if now - t.lastActivity >= idle.timeout then t.(ins := t.ins.(inactive := true)) else t;
    StallChecked(u, true, now)
  }

  function RadioHeard(k: Client, band: Band, freqHz: int, tx: bool, deviceOnline: bool, now: int): Client {
    var live := deviceOnline && freqHz > 0;
    var vfo := live && k.radio.liveFreqHz != 0 && freqHz != k.radio.liveFreqHz;
    var t := if vfo || (k.radio.seen && deviceOnline && tx) then MarkedActive(k, now) else k;
    t.(radio := Radio(k.radio.bridgeOnline, deviceOnline, true, if live || freqHz == 0 then freqHz else k.radio.liveFreqHz),
       ins := t.ins.(band := band, freqHz := freqHz, tx := tx, radioOnline := k.radio.bridgeOnline && deviceOnline))
  }

  /** The antenna mode (a malformed one is no event), the followed controller, the periodic check, the radio and its
      bridge, the switch, the operator (a malformed request is no event), and a station hold's status and state: until is the
      end it claims, None when it is released or malformed, received when it came in. */
  datatype Event =
    | AntMode(locked: bool, ground: bool)
    | FollowState(online: bool, retracted: bool, lockShown: bool)
    | IdleCheck
    | RadioState(band: Band, freqHz: int, tx: bool, deviceOnline: bool)
    | RadioStatus(bridge: bool)
    | SwitchState(selected: Port)
    | Operator(request: Request)
    | HoldStatus(slot: string, slotOnline: bool)
    | HoldState(slot: string, until: Option<int>, received: int)

  function Mutated(k: Client, e: Event, idle: Idle, now: int): Client {
    match e
    case AntMode(locked, ground) => Locked(k, locked, ground, now)
    case FollowState(online, retracted, shown) => Reported(k, online, retracted, shown, now)
    case IdleCheck => IdleChecked(k, idle, now)
    case RadioState(band, hz, tx, device) => RadioHeard(k, band, hz, tx, device, now)
    case RadioStatus(bridge) =>
      k.(radio := k.radio.(bridgeOnline := bridge), ins := k.ins.(radioOnline := bridge && k.radio.deviceOnline))
    case SwitchState(selected) => k.(ins := k.ins.(selected := selected))
    case Operator(r) =>
      var t := k.(ins := k.ins.(request := r));
      if HoldActive(r) then MarkedActive(t, now) else t
    case HoldStatus(slot, online) => HoldsApplied(HoldNoted(k, slot, HoldOf(k, slot).(online := online)), idle.slots, now)
    case HoldState(slot, until, received) =>
      HoldsApplied(HoldNoted(k, slot, StationHold(HoldOf(k, slot).online, until.Some?, until.GetOr(0), received)), idle.slots, now)
  }

  function Emitted(c: Config, k: Client): Emission { ToSend(k.ins, k.sent, Next(c, k.ins)) }

  function Step(c: Config, idle: Idle, k: Client, e: Event, now: int): Client {
    var t := Mutated(k, e, idle, now);
    t.(sent := Remembered(t.sent, Emitted(c, t)))
  }

  datatype Timed = Timed(event: Event, at: int)
  /** The station: its wiring, what counts as walking away, when the process started. */
  datatype Station = Station(config: Config, idle: Idle, start: int)

  function After(s: Station, run: seq<Timed>, i: nat): Client
    requires i <= |run|
  {
    if i == 0 then Init(s.start) else Step(s.config, s.idle, After(s, run, i - 1), run[i - 1].event, run[i - 1].at)
  }

  /** The client as event i has changed it, before anything is sent. */
  function During(s: Station, run: seq<Timed>, i: nat): Client
    requires i < |run|
  {
    Mutated(After(s, run, i), run[i].event, s.idle, run[i].at)
  }

  /** What event i makes the client send. */
  function Sends(s: Station, run: seq<Timed>, i: nat): Emission
    requires i < |run|
  {
    Emitted(s.config, During(s, run, i))
  }
}
