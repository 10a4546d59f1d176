/** Everything that reaches the antenna-mode engine, its start from a state file or from nothing, and the adoption of
    its own retained state during the startup hold. */
module AntEvents {
  import opened Options
  import opened Policy
  import opened AntModel

  datatype Stamp = NoStamp | BadStamp | At(t: int)
  datatype Action = SetAntMode(mode: Option<Mode>) | ReparkAction | DismissAction | OtherAction
  datatype Command = Command(action: Action, stamp: Stamp)

  const CMD_MAX_AGE := 30000
  const CMD_MAX_FUTURE := 5000
  const MAX_PENDING := 8

  datatype Boot = Boot(connected: bool, firstConnect: Option<int>, ready: bool, adopt: bool, fileSeq: int, pending: seq<Command>)

  datatype Engine = Engine(s: State, boot: Boot, warnings: seq<Warning>, wind: Option<Wind>)

  // ------------------------------------------------------------- the retained own state

  datatype PublishedBorrow = PublishedBorrow(startPhase: SeqPhase, since: int, takenOver: bool)

  /** The engine's retained state message; times in whole seconds; a phase that is no phase is None. */
  datatype Published = Published(mode: Mode, lock: Option<Lock>, seq_: int, source: Source, since: int,
                                 phase: Option<Phase>, borrow: Option<PublishedBorrow>)

  function Seconds(t: int): int { t / 1000 }

  function StateMessage(s: State): Published {
    Published(s.pol.s.mode, s.park.lock, s.pol.s.seq_, s.pol.s.source, Seconds(s.pol.s.since), Some(s.park.phase),
              if s.supply.borrow.Some? then
                Some(PublishedBorrow(s.supply.borrow.value.startPhase, Seconds(s.supply.borrow.value.since), s.supply.borrow.value.takenOver))
              else None)
  }

  const ZERO_LOCK := Lock(0, false, false, None, false)

  /** Reading a state message as the bridges do: a park azimuth out of range makes it malformed, a locked mode without
      a lock has an empty one, a normal mode has none. */
  function Parsed(doc: Published): Option<Published> {
    var lock := if doc.mode == Normal then None else if doc.lock.None? then Some(ZERO_LOCK) else doc.lock;
    if lock.Some? && lock.value.parkAz.Some? && !(0 <= lock.value.parkAz.value <= MAX_AZIMUTH) then None
    else Some(doc.(lock := lock))
  }

  // ------------------------------------------------------------- starting

  /** Repairs toward safety: a locked mode always has a grounded lock and a working phase, normal never has one. */
  function Normalized(s: State, now: int): State {
    if s.pol.s.mode == Normal then
      var b := if s.supply.borrow.Some? then Some(s.supply.borrow.value.(restore := true)) else None;
      s.(park := s.park.(lock := None, phase := Idle), supply := s.supply.(borrow := b))
    else
      var l := if s.park.lock.Some? then s.park.lock.value else ZERO_LOCK.(seq_ := s.pol.s.seq_);
      s.(park := s.park.(lock := Some(l.(ground := true, nudge := s.pol.s.mode == Maintenance)),
                         phase := if s.park.phase == Idle then Grounding else s.park.phase),
         supply := if s.supply.borrow.Some? then s.supply.(clock := now) else s.supply)
  }

  const SILENT := Siblings(PowerSeq(false, NoPhase), Rotator(false, false, None, false, None),
                           Elements(false, false, false, false, None), Switch(false, false, false),
                           Radio(false, false, false), Power(false, false, None))
  const UNWATCHED := Watch(false, None, false, 0, None)

  /** log: what the disk and the power command already carry from before the start. */
  function Started(loaded: Option<Snapshot>, log: seq<Effect>, now: int): Engine {
    var boot := Boot(false, None, false, loaded.None?, if loaded.Some? then loaded.value.standing.seq_ else 0, []);
    if loaded.None? then
      Engine(State(Pol(ZERO.(seq_ := Seconds(now)), None), Park(None, Idle, 0, false, None, false), Supply(None, 0, 0),
                   SILENT, UNWATCHED, Journal(log, None)), boot, [], None)
    else
      var f := loaded.value;
      Engine(Normalized(State(Pol(Loaded(f.standing), None), Park(f.lock, f.phase, 0, f.fault, f.nudgeBase, false),
                              Supply(f.borrow, f.borrowSeq, 0), SILENT, UNWATCHED, Journal(log, None)), now), boot, [], None)
  }

  /** The adoption of a locked state message over whatever was there. */
  function Adopted(s: State, doc: Published, now: int): State
    requires doc.lock.Some?
  {
    var l := doc.lock.value;
    var standing := s.pol.s.(mode := doc.mode, seq_ := if l.seq_ > s.pol.s.seq_ then l.seq_ else s.pol.s.seq_,
                             source := doc.source, since := doc.since * 1000, quietFor := 0);
    var b := if doc.borrow.None? then None
             else Some(Borrow(doc.borrow.value.startPhase, doc.borrow.value.since * 1000, doc.phase != Some(AwaitingPower), false,
                              doc.borrow.value.takenOver));
    Normalized(s.(pol := s.pol.(s := standing),
                  park := s.park.(lock := Some(l), phase := doc.phase.GetOr(Idle), fault := false),
                  supply := s.supply.(borrow := b, borrowSeq := if b.Some? then l.seq_ else s.supply.borrowSeq)), now)
  }

  /** The retained own state, read during the startup hold only; None is a malformed one. */
  function OwnStateHeard(e: Engine, raw: Option<Published>, now: int): Engine {
    if e.boot.ready || raw.None? || Parsed(raw.value).None? then e
    else
      var doc := Parsed(raw.value).value;
      var s := if doc.seq_ > e.s.pol.s.seq_ then e.s.(pol := e.s.pol.(s := e.s.pol.s.(seq_ := doc.seq_))) else e.s;
      if doc.mode == Normal || (!e.boot.adopt && doc.lock.value.seq_ <= e.boot.fileSeq) then e.(s := s)
      else e.(s := Adopted(s, doc, now))
  }

  // ------------------------------------------------------------- sibling messages

  datatype Slot = SeqSlot | RotSlot | AntSlot | SwSlot | RadioSlot | PowerSlot

  datatype Message =
    | Status(slot: Slot, online: bool)
    | SeqState(seqPhase: Option<SeqPhase>)   // None: the retained topic was cleared
    | RotState(az: Option<real>, target: Option<real>, rotMoving: bool, rotDevice: Option<bool>)
    | AntState(retracted: bool, retractSeq: Option<int>, antMoving: bool, antDevice: Option<bool>)
    | SwState(off: bool, swDevice: Option<bool>)
    | RadioState(tx: bool, radioDevice: Option<bool>)
    | PowerState(on: Option<bool>, powerDevice: Option<bool>)

  function StatusHeard(b: Siblings, slot: Slot, online: bool): Siblings {
    match slot
    case SeqSlot => b.(seq_ := b.seq_.(status := online))
    case RotSlot => b.(rot := b.rot.(status := online))
    case AntSlot => b.(ant := b.ant.(status := online))
    case SwSlot => b.(sw := b.sw.(status := online))
    case RadioSlot => b.(radio := b.radio.(status := online))
    case PowerSlot => b.(pwr := b.pwr.(status := online))
  }

  /** An idle straight after a manned phase is a lost phase, not a shutdown. */
  function SeqHeard(s: State, p: Option<SeqPhase>, now: int): State {
    var wasManned := s.sib.seq_.phase in {Starting, Running, Waking};
    var watch := if p == Some(IdleSeq) && wasManned then s.watch.(seqLost := true, seqLostAt := now)
                 else if p.Some? && p != Some(IdleSeq) then s.watch.(seqLost := false)
                 else s.watch;
    s.(sib := s.sib.(seq_ := s.sib.seq_.(phase := p.GetOr(NoPhase))), watch := watch)
  }

  function Heard(c: Config, s: State, m: Message, now: int): State {
    match m
    case Status(slot, online) =>
      var b := StatusHeard(s.sib, slot, online);
      s.(sib := b, park := if slot == RotSlot then ParkTargetNoted(c, b.rot, s.park, false) else s.park)
    case SeqState(p) => SeqHeard(s, p, now)
    case RotState(az, target, moving, device) =>
      var rot := Rotator(s.sib.rot.status, device.GetOr(true), if az.Some? then az else s.sib.rot.az, moving, target);
      s.(sib := s.sib.(rot := rot), park := ParkTargetNoted(c, rot, s.park, true))
    case AntState(retracted, seq_, moving, device) =>
      s.(sib := s.sib.(ant := Elements(s.sib.ant.status, device.GetOr(true), retracted, moving, seq_)))
    case SwState(off, device) => s.(sib := s.sib.(sw := Switch(s.sib.sw.status, device.GetOr(true), off)))
    case RadioState(tx, device) =>
      var t := TxNoted(s, now);
      TxNoted(t.(sib := t.sib.(radio := Radio(t.sib.radio.status, device.GetOr(true), tx))), now)
    case PowerState(on, device) => s.(sib := s.sib.(pwr := Power(s.sib.pwr.status, device.GetOr(true), on)))
  }

  // ------------------------------------------------------------- events

  datatype Event =
    | Bus(message: Message)
    | NinaResult(found: Option<seq<Warning>>)
    | WindResult(dirDeg: Option<real>)
    | Tick
    | Cmd(cmd: Command)
    | SetConnected(connected: bool)
    | OwnState(doc: Option<Published>)

  predicate Dropped(cmd: Command, now: int) {
    cmd.stamp == BadStamp || (cmd.stamp.At? && (now - cmd.stamp.t > CMD_MAX_AGE || cmd.stamp.t - now > CMD_MAX_FUTURE))
  }

  function Applied(c: Config, w: World, s: State, cmd: Command, active: seq<Id>, now: int): State {
    if Dropped(cmd, now) then s
    else match cmd.action
      case SetAntMode(mode) =>
        if mode.None? || mode.value == s.pol.s.mode then s
        else ModeChanged(c, w, s.(pol := ModeSet(s.pol, mode.value, now, active)), s.pol.s.mode, now)
      case ReparkAction => if s.pol.s.mode == Normal then s else ParkRestarted(c, w, s.(pol := Reparked(s.pol)), now)
      case DismissAction => s.(pol := Dismissed(s.pol, active))
      case OtherAction => s
  }

  function AppliedAll(c: Config, w: World, s: State, cmds: seq<Command>, active: seq<Id>, now: int): State {
    if cmds == [] then s
    else Applied(c, w, AppliedAll(c, w, s, cmds[..|cmds| - 1], active, now), cmds[|cmds| - 1], active, now)
  }

  function SteppedAndSaved(c: Config, w: World, e: Engine, now: int): Engine {
    e.(s := Persisted(w, Stepped(c, w, e.s, ActiveIds(e.warnings, now), e.wind, now)))
  }

  /** The startup hold ends: the queued commands apply on top of what was loaded or adopted. */
  function BecameReady(c: Config, w: World, e: Engine, now: int): Engine {
    var s := e.s.(park := e.s.park.(since := now),
                  supply := if e.s.supply.borrow.Some? then e.s.supply.(clock := now) else e.s.supply);
    var t := AppliedAll(c, w, s, e.boot.pending, ActiveIds(e.warnings, now), now);
    SteppedAndSaved(c, w, e.(s := t, boot := e.boot.(ready := true, adopt := false, pending := [])), now)
  }

  predicate HoldOver(b: Boot, now: int) { b.connected && b.firstConnect.Some? && now >= b.firstConnect.value + STARTUP_HOLD }

  function NinaPolled(c: Config, w: World, s: State, found: Option<seq<Warning>>, now: int): State {
    var p := Polled(c.policy, s.pol, now, if found.Some? then Some(ActiveIds(found.value, now)) else None);
    if p.s.mode == s.pol.s.mode then s.(pol := p) else ModeChanged(c, w, s.(pol := p), s.pol.s.mode, now)
  }

  function Step(c: Config, w: World, e: Engine, ev: Event, now: int): Engine {
    match ev
    case Bus(m) =>
      var t := e.(s := Heard(c, e.s, m, now));
      if e.boot.ready then SteppedAndSaved(c, w, t, now) else t
    case NinaResult(found) =>
      var t := if found.Some? then e.(warnings := found.value) else e;
      if e.boot.ready then SteppedAndSaved(c, w, t.(s := NinaPolled(c, w, e.s, found, now)), now) else t
    case WindResult(dir) =>
      var t := if dir.Some? then e.(wind := Some(Wind(dir.value, now))) else e;
      if e.boot.ready then SteppedAndSaved(c, w, t, now) else t
    case Tick =>
      if e.boot.ready then SteppedAndSaved(c, w, e, now)
      else if HoldOver(e.boot, now) then BecameReady(c, w, e, now)
      else e
    case Cmd(cmd) =>
      if e.boot.ready then SteppedAndSaved(c, w, e.(s := Applied(c, w, e.s, cmd, ActiveIds(e.warnings, now), now)), now)
      else if |e.boot.pending| < MAX_PENDING then e.(boot := e.boot.(pending := e.boot.pending + [cmd]))
      else e
    case SetConnected(on) =>
      e.(boot := e.boot.(connected := on, firstConnect := if on && e.boot.firstConnect.None? then Some(now) else e.boot.firstConnect))
    case OwnState(doc) => OwnStateHeard(e, doc, now)
  }

  /** The event takes the engine's retained state over whatever it had. */
  predicate Adopts(e: Engine, ev: Event) {
    && ev.OwnState? && !e.boot.ready && ev.doc.Some? && Parsed(ev.doc.value).Some? && ev.doc.value.mode != Normal
    && (e.boot.adopt || Parsed(ev.doc.value).value.lock.value.seq_ > e.boot.fileSeq)
  }

  datatype Timed = Timed(event: Event, at: int)

  /** The engine after the first i events of a run. */
  function After(c: Config, w: World, start: Engine, run: seq<Timed>, i: nat): Engine
    requires i <= |run|
  {
    if i == 0 then start else Step(c, w, After(c, w, start, run, i - 1), run[i - 1].event, run[i - 1].at)
  }
}
