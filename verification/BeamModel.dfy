/** The beam-steering engine as a state machine over values. Publishing is attempted in order; `sends` says,
    for each attempt ever made, whether it went out. Time is in milliseconds and constant within one event. */
module BeamModel {
  import opened Options
  import opened Steer

  const DIR_SETTLE := 15000
  const ROT_ACK_WINDOW := 10000
  const ROT_TRAVEL_WINDOW := 120000
  const ANT_MODE_HOLD := 3000
  const ARRIVE_TOLERANCE: real := 3.0

  /** locks: an antenna-mode slot is configured. */
  datatype Config = Config(beam: Beam, locks: bool)

  datatype Rotator = Rotator(status: bool, device: bool, az: real, azKnown: bool, target: Option<real>, moving: bool) {
    predicate Live() { status && device }
  }
  datatype Antenna = Antenna(status: bool, device: bool, direction: Direction, moving: bool, on6m: bool) {
    predicate Live() { status && device }
  }
  datatype Radio = Radio(status: bool, device: bool, on6m: bool, tx: bool) {
    predicate Live() { status && device }
  }
  datatype Liveness = Liveness(rotator: bool, antCtrl: bool, radio: bool)

  /** The sibling bridges as last reported, and the liveness last shown in the engine's own state. */
  datatype Siblings = Siblings(rot: Rotator, ant: Antenna, radio: Radio, shown: Liveness)

  /** A direction command in flight, and a set_az in flight. */
  datatype Flip = Flip(dir: Direction, from: Direction, until: int)
  datatype Turn = Turn(target: int, until: int, acked: bool, moved: bool, fromMoving: bool)
  datatype Held = Held(dir: Direction, bearing: real)
  datatype Last = Last(bearing: real, rotateTo: Option<int>, direction: Option<Direction>)
  datatype Orders = Orders(flip: Option<Flip>, turn: Option<Turn>, pending: Option<Held>, last: Option<Last>)

  datatype Mode = Normal | Storm | Maintenance

  /** box: the antenna mode recorded off the bus, current when recorded on this connection; the rest is what the worker last applied. */
  datatype Lock = Lock(box: Mode, seen: bool, current: bool, mode: Mode, known: bool, holdUntil: Option<int>)

  datatype Sent = SetAz(target: int) | SetDirection(dir: Direction) | StopRotator | Report

  datatype State = State(enabled: bool, connected: bool, sib: Siblings, orders: Orders, lock: Lock, out: seq<Sent>)

  function Init(c: Config): State {
    State(false, false,
          Siblings(Rotator(false, false, 0.0, false, None, false), Antenna(false, false, Unknown, false, false),
                   Radio(false, false, false, false), Liveness(false, false, false)),
          Orders(None, None, None, None), Lock(Normal, false, false, Normal, !c.locks, None), [])
  }

  // ------------------------------------------------------------- the effective state

  predicate Transmitting(b: Siblings) { b.radio.Live() && b.radio.tx }

  predicate On6m(b: Siblings) { (b.ant.Live() && b.ant.on6m) || (b.radio.Live() && b.radio.on6m) }

  predicate FlipInFlight(o: Orders, now: int) { o.flip.Some? && now < o.flip.value.until }

  function EffectiveDirection(s: State, now: int): Direction {
    if !s.sib.ant.Live() then Unknown
    else if FlipInFlight(s.orders, now) then s.orders.flip.value.dir
    else s.sib.ant.direction
  }

  function EffectiveAz(s: State, now: int): real {
    if s.orders.turn.Some? && now < s.orders.turn.value.until then s.orders.turn.value.target as real
    else if s.sib.rot.moving && s.sib.rot.target.Some? then s.sib.rot.target.value
    else s.sib.rot.az
  }

  function Situation(s: State, now: int, bearing: real): Inputs {
    Inputs(bearing, EffectiveAz(s, now), EffectiveDirection(s, now), On6m(s.sib))
  }

  predicate Refused(l: Lock) { l.mode != Normal || !l.known }

  // ------------------------------------------------------------- publishing

  function Published(s: State, m: Sent): State { s.(out := s.out + [m]) }

  function WithTurn(s: State, target: int, now: int): State {
    s.(orders := s.orders.(turn := Some(Turn(target, now + ROT_ACK_WINDOW, false, false, s.sib.rot.moving))))
  }

  function SendRotate(s: State, sent: bool, target: int, now: int): State {
    var p := Published(s, SetAz(target));
    if sent then WithTurn(p, target, now) else p
  }

  function Noted(s: State, rotateTo: Option<int>, direction: Option<Direction>): State {
    if s.orders.last.None? then s
    else s.(orders := s.orders.(last := Some(Last(s.orders.last.value.bearing, rotateTo, direction))))
  }

  function Hold(s: State, pending: Option<Held>): State { s.(orders := s.orders.(pending := pending)) }

  // ------------------------------------------------------------- antenna-mode lock

  function LearnedLock(l: Lock, now: int): Lock {
    l.(known := l.known || l.current || (l.holdUntil.Some? && l.holdUntil.value <= now))
  }

  function Synced(s: State, now: int): State {
    var l := LearnedLock(s.lock, now);
    if !l.seen then s.(lock := l)
    else
      var t := s.(lock := l.(mode := l.box));
      if l.box == l.mode then t
      else if l.box != Normal then Published(Hold(t, None), Report)
      else Published(t, Report)
  }

  // ------------------------------------------------------------- deciding and flushing

  /** changed: the flush did something; finished: it ended within the flushes it was allowed. */
  datatype Flow = Flow(s: State, changed: bool, finished: bool)

  predicate FlipMayGo(s: State, now: int) {
    s.connected && !s.sib.ant.moving && !Transmitting(s.sib) && !FlipInFlight(s.orders, now)
  }

  function DecideAndApply(c: Config, sends: nat -> bool, s: State, now: int, b: real, flushes: nat): Flow
    decreases flushes, 1
  {
    var d := Decide(c.beam, Situation(s, now, b));
    var noted := Noted(s, None, d.direction);
    if d.rotateTo.Some? && !sends(|s.out|) then
      Flow(Noted(SendRotate(noted, false, d.rotateTo.value, now), None, None), true, true)
    else
      var turned := if d.rotateTo.Some? then Noted(SendRotate(noted, true, d.rotateTo.value, now), d.rotateTo, d.direction)
                    else noted;
      if d.direction.None? then Flow(turned, true, true)
      else Flush(c, sends, Hold(turned, Some(Held(d.direction.value, b))), now, flushes)
  }

  function Flush(c: Config, sends: nat -> bool, before: State, now: int, flushes: nat): Flow
    decreases flushes, 0
  {
    if flushes == 0 then Flow(before, false, false)
    else
      var s := Synced(before, now);
      if s.orders.pending.None? then Flow(s, false, true)
      else if Refused(s.lock) || !s.sib.ant.Live() then Flow(Hold(s, None), true, true)
      else if !FlipMayGo(s, now) then Flow(s, false, true)
      else
        var p := s.orders.pending.value;
        var free := Hold(s, None);
        var d := Decide(c.beam, Situation(free, now, p.bearing));
        if d.rotateTo.Some? then
          if free.orders.last.Some? && free.orders.last.value.bearing == p.bearing
          then DecideAndApply(c, sends, free, now, p.bearing, flushes - 1).(changed := true)
          else Flow(free, true, true)
        else if d.direction.None? then Flow(free, true, true)
        else
          var tried := Published(free, SetDirection(d.direction.value));
          if sends(|free.out|) then Flow(WithFlip(tried, d.direction.value, now), true, true)
          else Flow(Hold(tried, Some(Held(d.direction.value, p.bearing))), false, true)
  }

  function WithFlip(s: State, dir: Direction, now: int): State {
    s.(orders := s.orders.(flip := Some(Flip(dir, s.sib.ant.direction, now + DIR_SETTLE))))
  }

  /** When the lobe holds the rounding of the bearing two flushes are enough, since the second one no longer rotates
      (BeamSettles.TwoFlushesSuffice). Otherwise they need not be (BeamSettles.EndsExactlyWhen, FlushEndsExactlyWhen). */
  const FLUSHES: nat := 2

  function Retried(c: Config, sends: nat -> bool, s: State, now: int): State {
    var f := Flush(c, sends, s, now, FLUSHES);
    if f.changed then Published(f.s, Report) else f.s
  }

  // ------------------------------------------------------------- bus inputs

  datatype RotatorDoc = RotatorDoc(az: Option<real>, target: Option<real>, moving: bool, deviceOnline: Option<bool>)
  datatype AntDoc = AntDoc(direction: Direction, on6m: bool, moving: bool, deviceOnline: Option<bool>)
  datatype RadioDoc = RadioDoc(on6m: bool, tx: bool, deviceOnline: Option<bool>)

  function LivenessOf(b: Siblings): Liveness {
    Liveness(b.rot.Live() && b.rot.azKnown, b.ant.Live(), b.radio.Live())
  }

  function InputsChanged(s: State): State {
    if LivenessOf(s.sib) == s.sib.shown then s
    else Published(s.(sib := s.sib.(shown := LivenessOf(s.sib))), Report)
  }

  function RotatorReads(r: Rotator, doc: RotatorDoc): Rotator {
    r.(az := doc.az.GetOr(r.az), azKnown := r.azKnown || doc.az.Some?, target := doc.target, moving := doc.moving,
       device := doc.deviceOnline.GetOr(true))
  }

  /** The in-flight set_az after a rotator frame: acknowledged, moved, or retired. */
  function SettledTurn(t: Turn, r: Rotator, now: int): Option<Turn> {
    var ours := r.target.Some? && Abs(r.target.value - t.target as real) <= 1.0;
    var t1 := if !t.acked && (ours || (!t.fromMoving && r.moving)) then t.(acked := true, until := now + ROT_TRAVEL_WINDOW) else t;
    var t2 := if t1.acked && r.moving then t1.(moved := true) else t1;
    if !r.moving && r.azKnown && Abs(r.az - t.target as real) <= ARRIVE_TOLERANCE then None
    else if t2.moved && !r.moving then None
    else if t2.acked && r.target.Some? && !ours then None
    else Some(t2)
  }

  function OnRotatorState(s: State, doc: RotatorDoc, now: int): State {
    var r := RotatorReads(s.sib.rot, doc);
    var t := s.orders.turn;
    InputsChanged(s.(sib := s.sib.(rot := r),
                     orders := s.orders.(turn := if t.Some? then SettledTurn(t.value, r, now) else None)))
  }

  function SettledFlip(f: Flip, doc: AntDoc): Option<Flip> {
    if doc.moving || (doc.direction == f.from && f.from != f.dir) then Some(f) else None
  }

  function OnAntDoc(s: State, doc: AntDoc): State {
    var a := s.sib.ant.(direction := doc.direction, on6m := doc.on6m, moving := doc.moving, device := doc.deviceOnline.GetOr(true));
    var f := s.orders.flip;
    s.(sib := s.sib.(ant := a), orders := s.orders.(flip := if f.Some? then SettledFlip(f.value, doc) else None))
  }

  function OnRadioDoc(s: State, doc: RadioDoc): State {
    s.(sib := s.sib.(radio := s.sib.radio.(on6m := doc.on6m, tx := doc.tx, device := doc.deviceOnline.GetOr(true))))
  }

  datatype Sibling = RotatorSlot | AntSlot | RadioSlot

  function OnStatus(s: State, which: Sibling, online: bool): State {
    match which
    case RotatorSlot => s.(sib := s.sib.(rot := s.sib.rot.(status := online)))
    case AntSlot => s.(sib := s.sib.(ant := s.sib.ant.(status := online)))
    case RadioSlot => s.(sib := s.sib.(radio := s.sib.radio.(status := online)))
  }

  // ------------------------------------------------------------- requests

  function Asked(s: State, b: real): State {
    s.(orders := s.orders.(pending := None, last := Some(Last(b, None, None))))
  }

  function GotoFlow(c: Config, sends: nat -> bool, before: State, now: int, bearing: real, flushes: nat): Flow {
    var b := Norm(bearing);
    var s := Asked(Synced(before, now), b);
    if !s.connected then Flow(s, true, true)
    else if Refused(s.lock) then Flow(Published(s, Report), true, true)
    else if !s.enabled then
      var sent := sends(|s.out|);
      var t := SendRotate(s, sent, Round(b), now);
      Flow(Published(if sent then Noted(t, Some(Round(b)), None) else t, Report), true, true)
    else if !s.sib.rot.Live() || !s.sib.rot.azKnown then Flow(Published(s, Report), true, true)
    else
      var f := DecideAndApply(c, sends, s, now, b, flushes);
      f.(s := Published(f.s, Report))
  }

  function OnStop(before: State, now: int): State {
    var s := Synced(before, now);
    if Refused(s.lock) then s else Published(s.(orders := s.orders.(turn := None)), StopRotator)
  }

  function Lapsed(o: Orders, now: int): Orders {
    o.(flip := if FlipInFlight(o, now) then o.flip else None,
       turn := if o.turn.Some? && now < o.turn.value.until then o.turn else None)
  }

  /** The state a tick flushes from. */
  function Ticked(before: State, now: int): State {
    var s := Synced(before, now);
    s.(orders := Lapsed(s.orders, now))
  }

  function OnTick(c: Config, sends: nat -> bool, before: State, now: int): State {
    Retried(c, sends, Ticked(before, now), now)
  }

  function OnConnected(c: Config, s: State, on: bool, now: int): State {
    var t := s.(connected := on);
    if on && c.locks then t.(lock := t.lock.(known := false, holdUntil := Some(now + ANT_MODE_HOLD))) else t
  }

  function OnEnabled(s: State, on: bool): State {
    if s.enabled == on then s
    else Published(s.(enabled := on, orders := s.orders.(pending := None, last := None)), Report)
  }

  // ------------------------------------------------------------- events

  /** A payload that does not parse is None. */
  datatype Event =
    | Status(which: Sibling, online: bool)
    | RotatorState(rotator: Option<RotatorDoc>)
    | AntState(ant: Option<AntDoc>)
    | RadioState(radio: Option<RadioDoc>)
    | Goto(bearing: real)
    | Stop
    | Tick
    | SetConnected(on: bool)
    | SetEnabled(enable: bool)
    | AntModeState(mode: Option<Mode>)
    | AntModeConnecting
    | SyncAntMode

  function Step(c: Config, sends: nat -> bool, s: State, e: Event, now: int): State {
    match e
    case Status(which, online) =>
      var t := InputsChanged(OnStatus(s, which, online));
      if which == RotatorSlot then t else Retried(c, sends, t, now)
    case RotatorState(doc) => if doc.None? then s else OnRotatorState(s, doc.value, now)
    case AntState(doc) => if doc.None? then s else Retried(c, sends, InputsChanged(OnAntDoc(s, doc.value)), now)
    case RadioState(doc) => if doc.None? then s else Retried(c, sends, InputsChanged(OnRadioDoc(s, doc.value)), now)
    case Goto(b) => GotoFlow(c, sends, s, now, b, FLUSHES).s
    case Stop => OnStop(s, now)
    case Tick => OnTick(c, sends, s, now)
    case SetConnected(on) => OnConnected(c, s, on, now)
    case SetEnabled(on) => OnEnabled(s, on)
    case AntModeState(mode) => if mode.None? then s else s.(lock := s.lock.(box := mode.value, seen := true, current := true))
    case AntModeConnecting => s.(lock := s.lock.(current := false))
    case SyncAntMode => Synced(s, now)
  }

  datatype Timed = Timed(event: Event, at: int)

  /** The state after the first i events of a run. */
  function After(c: Config, sends: nat -> bool, run: seq<Timed>, i: nat): State
    requires i <= |run|
  {
    if i == 0 then Init(c) else Step(c, sends, After(c, sends, run, i - 1), run[i - 1].event, run[i - 1].at)
  }
}
