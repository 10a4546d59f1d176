/** The antenna-mode engine as a state machine over values: the lock built in safe order, the antenna-power borrow,
    presence, persistence and adoption. Saves and power commands may fail; every attempt is logged in order.
    Times are in milliseconds, constant within one event. */
module AntModel {
  import opened Options
  import opened Policy
  import Heading

  // ------------------------------------------------------------- configuration

  datatype Timeouts = Timeouts(ground: int, retract: int, rotate: int, txQuiet: int, devices: int)

  datatype Config = Config(policy: PolicyConfig, timeouts: Timeouts, tolerance: int, borrows: bool,
                           maxAz: int, fallbackAz: int, maintenanceAz: int, windStale: int)
  {
    predicate Valid() {
      && timeouts.ground > 0 && timeouts.retract > 0 && timeouts.rotate > 0
      && timeouts.txQuiet >= 20000 && timeouts.devices >= 180000
      && 1 <= tolerance <= 20
      && 360 <= maxAz <= 450 && 0 <= fallbackAz <= maxAz && 0 <= maintenanceAz <= maxAz
      && policy.exitHoldoff > 0 && windStale > 0
    }
  }

  const STARTUP_HOLD := 3000
  const PRESENCE_DWELL := 60000
  const LOST_IDLE_HOLD := 1800000
  const MAX_AZIMUTH := 450

  // ------------------------------------------------------------- siblings

  datatype Rotator = Rotator(status: bool, device: bool, az: Option<real>, moving: bool, target: Option<real>) {
    predicate Live() { status && device }
  }
  datatype Elements = Elements(status: bool, device: bool, retracted: bool, moving: bool, retractSeq: Option<int>) {
    predicate Live() { status && device }
  }
  datatype Switch = Switch(status: bool, device: bool, off: bool) {
    predicate Live() { status && device }
  }
  datatype Radio = Radio(status: bool, device: bool, tx: bool) {
    predicate Live() { status && device }
  }
  /** on: None is a power state that is neither on nor off. */
  datatype Power = Power(status: bool, device: bool, on: Option<bool>) {
    predicate Live() { status && device }
  }
  datatype SeqPhase = NoPhase | IdleSeq | Standby | Running | Starting | Waking | OtherSeq(name: string)
  datatype PowerSeq = PowerSeq(status: bool, phase: SeqPhase)

  datatype Siblings = Siblings(seq_: PowerSeq, rot: Rotator, ant: Elements, sw: Switch, radio: Radio, pwr: Power)

  predicate Transmitting(b: Siblings) { b.radio.Live() && b.radio.tx }
  predicate PowerOn(b: Siblings) { b.pwr.Live() && b.pwr.on == Some(true) }
  predicate DeEnergised(p: SeqPhase) { p == IdleSeq || p == Standby }

  // ------------------------------------------------------------- the engine's own state

  datatype Phase = Idle | Grounding | Retracting | AwaitingPower | AwaitingDevices | Rotating | Parked | Failed

  datatype Lock = Lock(seq_: int, ground: bool, retract: bool, parkAz: Option<int>, nudge: bool)

  datatype Borrow = Borrow(startPhase: SeqPhase, since: int, sent: bool, restore: bool, takenOver: bool)

  datatype Park = Park(lock: Option<Lock>, phase: Phase, since: int, fault: bool, nudgeBase: Option<real>, parkSeen: bool)

  datatype Supply = Supply(borrow: Option<Borrow>, borrowSeq: int, clock: int)

  datatype Watch = Watch(wasManned: bool, unmannedSince: Option<int>, seqLost: bool, seqLostAt: int, lastTx: Option<int>)

  /** What is saved. */
  datatype Snapshot = Snapshot(standing: Standing, lock: Option<Lock>, phase: Phase, fault: bool, borrow: Option<Borrow>,
                               borrowSeq: int, nudgeBase: Option<real>)

  /** Saved: a snapshot reached the disk. SaveLost: a save failed and the disk kept what it had. OnTried: set_power
      on was published, delivered for certain (ok) or perhaps, for a borrow powerseq already owned or not. OffSent: the
      restore was published. OffLost: its publish failed. TookOver: powerseq was seen to own the power. */
  datatype Effect = Saved(snap: Snapshot) | SaveLost | OnTried(ok: bool, owned: bool) | OffSent | OffLost | TookOver

  /** Whether the n-th effect ever tried, a save or a power command, succeeds. */
  type World = nat -> bool

  datatype Journal = Journal(log: seq<Effect>, lastPersisted: Option<Snapshot>)

  datatype State = State(pol: Pol, park: Park, supply: Supply, sib: Siblings, watch: Watch, journal: Journal)

  function SnapshotOf(s: State): Snapshot {
    Snapshot(s.pol.s, s.park.lock, s.park.phase, s.park.fault, s.supply.borrow, s.supply.borrowSeq, s.park.nudgeBase)
  }

  function Logged(s: State, e: Effect): State { s.(journal := s.journal.(log := s.journal.log + [e])) }

  // ------------------------------------------------------------- phases and the borrow

  function Phased(k: Park, p: Phase, now: int): Park { if p == k.phase then k else k.(phase := p, since := now) }

  function InPhase(s: State, p: Phase, now: int): State { s.(park := Phased(s.park, p, now)) }

  function OnSent(w: World, s: State): State
    requires s.supply.borrow.Some?
  {
    var ok := w(|s.journal.log|);
    var t := Logged(s, OnTried(ok, s.supply.borrow.value.takenOver));
    if ok then t.(supply := t.supply.(borrow := Some(s.supply.borrow.value.(sent := true)))) else t
  }

  predicate MayBorrow(c: Config, s: State) {
    && c.borrows && s.supply.borrow.None?
    && s.sib.pwr.Live() && s.sib.pwr.on == Some(false)
    && s.sib.seq_.status && s.sib.seq_.phase in {IdleSeq, Standby, Running}
  }

  /** The state with a borrow taken for the current lock but nothing saved or sent yet. */
  function Borrowing(s: State, now: int): State {
    var b := Borrow(s.sib.seq_.phase, now, false, false, false);
    s.(supply := s.supply.(borrow := Some(b), borrowSeq := LockSeq(s)), park := Phased(s.park.(fault := false), AwaitingPower, now))
  }

  function LockSeq(s: State): int { if s.park.lock.Some? then s.park.lock.value.seq_ else 0 }

  /** The borrow is on disk before power is switched on; a save that fails gives it up. */
  function BorrowStarted(c: Config, w: World, s: State, now: int): State {
    if !MayBorrow(c, s) then s
    else
      var t := Borrowing(s, now);
      if w(|s.journal.log|) then
        var saved := Logged(t, Saved(SnapshotOf(t)));
        OnSent(w, saved.(supply := saved.supply.(clock := now), journal := saved.journal.(lastPersisted := None)))
      else
        Logged(t, SaveLost).(supply := s.supply, park := Phased(t.park.(fault := s.park.fault), s.park.phase, now))
  }

  /** Gives a new lock its power: an open borrow is taken over by it, one powerseq owns is dropped. */
  function BorrowAttached(c: Config, w: World, s: State, now: int): State {
    var b := if s.supply.borrow.Some? && s.supply.borrow.value.takenOver then None else s.supply.borrow;
    if b.None? then BorrowStarted(c, w, s.(supply := s.supply.(borrow := None)), now)
    else
      var kept := b.value.(restore := false);
      if PowerOn(s.sib) then s.(supply := s.supply.(borrow := Some(kept), borrowSeq := LockSeq(s)))
      else s.(supply := Supply(Some(kept.(sent := false)), LockSeq(s), now), park := Phased(s.park, AwaitingPower, now))
  }

  // ------------------------------------------------------------- mode changes

  function NudgeBased(s: State): State { s.(park := s.park.(nudgeBase := s.sib.rot.target, parkSeen := false)) }

  function ParkRestarted(c: Config, w: World, s: State, now: int): State {
    if s.park.lock.None? then s
    else
      var l := s.park.lock.value.(seq_ := s.pol.s.seq_, parkAz := None);
      var k := Park(Some(l), if l.retract then Retracting else Grounding, now, false, s.park.nudgeBase, s.park.parkSeen);
      BorrowAttached(c, w, NudgeBased(s.(park := k)), now)
  }

  function ModeChanged(c: Config, w: World, s: State, from: Mode, now: int): State {
    var to := s.pol.s.mode;
    var cleared := s.(park := s.park.(fault := false));
    if to == Normal then
      var b := if s.supply.borrow.Some? then Some(s.supply.borrow.value.(restore := true)) else None;
      cleared.(park := Phased(cleared.park.(lock := None, nudgeBase := None), Idle, now), supply := s.supply.(borrow := b))
    else if from == Normal then
      var l := Lock(s.pol.s.seq_, true, false, None, to == Maintenance);
      BorrowAttached(c, w, NudgeBased(cleared.(park := Phased(cleared.park.(lock := Some(l)), Grounding, now))), now)
    else if s.park.lock.None? then cleared
    else
      var l := s.park.lock.value.(nudge := to == Maintenance);
      ParkRestarted(c, w, cleared.(park := cleared.park.(lock := Some(l))), now)
  }

  // ------------------------------------------------------------- the lock sequence

  predicate WithinTolerance(c: Config, a: real, b: real) { -c.tolerance as real <= a - b <= c.tolerance as real }

  function ParkTargetNoted(c: Config, rot: Rotator, k: Park, reported: bool): Park {
    if !rot.Live() then k.(parkSeen := false)
    else if k.lock.None? || k.lock.value.parkAz.None? || k.parkSeen then k
    else
      var park := k.lock.value.parkAz.value;
      k.(parkSeen := if rot.target.Some? then WithinTolerance(c, rot.target.value, park as real)
                     else park == 0 && reported && rot.moving)
  }

  predicate AtPark(c: Config, rot: Rotator, k: Park) {
    && k.lock.Some? && k.lock.value.parkAz.Some? && rot.Live() && rot.az.Some? && !rot.moving
    && WithinTolerance(c, rot.az.value, k.lock.value.parkAz.value as real)
  }

  predicate Nudged(c: Config, mode: Mode, rot: Rotator, k: Park) {
    && mode == Maintenance && k.lock.Some? && k.lock.value.parkAz.Some? && k.lock.value.nudge && k.parkSeen
    && rot.Live() && rot.az.Some? && !rot.moving && rot.target.Some?
    && !WithinTolerance(c, rot.target.value, k.lock.value.parkAz.value as real)
    && !(k.nudgeBase.Some? && WithinTolerance(c, rot.target.value, k.nudgeBase.value))
    && WithinTolerance(c, rot.az.value, rot.target.value)
  }

  /** The last wind report and when it came. */
  datatype Wind = Wind(dirDeg: real, at: int)

  function ParkAzimuth(c: Config, mode: Mode, rot: Rotator, wind: Option<Wind>, now: int): int {
    if mode != StormMode then c.maintenanceAz
    else
      var known := wind.Some? && now - wind.value.at <= c.windStale;
      var dir := if wind.Some? then wind.value.dirDeg else 0.0;
      Heading.StormAz(Heading.Inputs(dir, known, rot.az.GetOr(0.0), rot.Live() && rot.az.Some?, c.maxAz, c.fallbackAz))
  }

  function ParkComputed(c: Config, s: State, wind: Option<Wind>, now: int): State
    requires s.park.lock.Some?
  {
    var l := s.park.lock.value.(retract := true);
    if l.parkAz.Some? then s.(park := Phased(s.park.(lock := Some(l)), Rotating, now))
    else
      var aimed := l.(parkAz := Some(ParkAzimuth(c, s.pol.s.mode, s.sib.rot, wind, now)));
      s.(park := ParkTargetNoted(c, s.sib.rot, Phased(s.park.(lock := Some(aimed)), Rotating, now), false))
  }

  function RetractOrdered(s: State, now: int): State
    requires s.park.lock.Some?
  {
    s.(park := Phased(s.park.(lock := Some(s.park.lock.value.(retract := true))), Retracting, now))
  }

  predicate SwitchedOff(s: State) { s.sib.sw.Live() && s.sib.sw.off }

  /** Since the last transmission seen there has been a pause longer than a digital mode's. */
  predicate RadioQuiet(c: Config, s: State, now: int) {
    !Transmitting(s.sib) && (s.watch.lastTx.None? || now - s.watch.lastTx.value >= c.timeouts.txQuiet)
  }

  predicate RetractConfirmed(s: State)
    requires s.park.lock.Some?
  {
    s.sib.ant.Live() && s.sib.ant.retractSeq == Some(s.park.lock.value.seq_) && s.sib.ant.retracted && !s.sib.ant.moving
  }

  predicate BorrowTimedOut(c: Config, s: State, now: int) { now - s.supply.clock >= c.timeouts.devices }

  function Arrived(c: Config, s: State, now: int): State { s.(park := Phased(s.park.(fault := false), Parked, now)) }

  function LockStepped(c: Config, w: World, s: State, wind: Option<Wind>, now: int): State
    requires s.park.lock.Some?
  {
    var elapsed := now - s.park.since;
    match s.park.phase
    case AwaitingPower =>
      if s.supply.borrow.None? then InPhase(s, Grounding, now)
      else
        var t := if s.supply.borrow.value.sent then s else OnSent(w, s);
        if PowerOn(t.sib) then InPhase(t, AwaitingDevices, now)
        else if BorrowTimedOut(c, t, now) then InPhase(t, Grounding, now)
        else t
    case AwaitingDevices =>
      if (s.sib.rot.Live() && s.sib.ant.Live()) || BorrowTimedOut(c, s, now) then InPhase(s, Grounding, now) else s
    case Grounding =>
      if SwitchedOff(s) || (elapsed >= c.timeouts.ground && RadioQuiet(c, s, now)) then RetractOrdered(s, now) else s
    case Retracting =>
      if RetractConfirmed(s) || elapsed >= c.timeouts.retract then ParkComputed(c, s, wind, now) else s
    case Rotating =>
      var t := s.(park := ParkTargetNoted(c, s.sib.rot, s.park, false));
      if AtPark(c, t.sib.rot, t.park) || Nudged(c, t.pol.s.mode, t.sib.rot, t.park) then Arrived(c, t, now)
      else if elapsed >= c.timeouts.rotate then t.(park := Phased(t.park.(fault := true), Failed, now))
      else t
    case Failed =>
      if s.park.lock.value.parkAz.Some? && (AtPark(c, s.sib.rot, s.park) || Nudged(c, s.pol.s.mode, s.sib.rot, s.park))
      then Arrived(c, s, now) else s
    case _ => s
  }

  // ------------------------------------------------------------- restoring the power

  predicate TakesOver(s: State)
    requires s.supply.borrow.Some?
  {
    !s.supply.borrow.value.takenOver && s.sib.seq_.status && s.sib.seq_.phase != NoPhase
    && s.sib.seq_.phase != s.supply.borrow.value.startPhase && !DeEnergised(s.sib.seq_.phase)
  }

  predicate RestoreDue(s: State)
    requires s.supply.borrow.Some?
  {
    s.supply.borrow.value.restore || (s.pol.s.mode == StormMode && (s.park.phase == Parked || s.park.phase == Failed))
  }

  /** A failed park whose rotator is still slewing keeps its power for one more rotate timeout. */
  predicate StillSlewing(c: Config, s: State, now: int)
    requires s.supply.borrow.Some?
  {
    !s.supply.borrow.value.restore && s.park.phase == Failed && s.sib.rot.Live() && s.sib.rot.moving
    && now - s.park.since < c.timeouts.rotate
  }

  function WithBorrow(s: State, b: Option<Borrow>): State { s.(supply := s.supply.(borrow := b)) }

  function BorrowStepped(c: Config, w: World, before: State, now: int): State {
    if before.supply.borrow.None? then before
    else
      var s := if TakesOver(before)
               then Logged(WithBorrow(before, Some(before.supply.borrow.value.(takenOver := true))), TookOver)
               else before;
      if !RestoreDue(s) || StillSlewing(c, s, now) then s
      else if s.supply.borrow.value.takenOver then WithBorrow(s, None)
      else if !s.sib.seq_.status || s.sib.seq_.phase == NoPhase then s
      else if w(|s.journal.log|) then WithBorrow(Logged(s, OffSent), None)
      else Logged(s, OffLost)
  }

  // ------------------------------------------------------------- presence

  predicate SeqManned(q: PowerSeq) { q.status && q.phase in {Starting, Running, Waking} }

  /** powerseq's presence, or a lost phase with recent life on the radio. */
  predicate BaseManned(s: State, now: int) {
    || SeqManned(s.sib.seq_)
    || (s.sib.seq_.status && s.sib.seq_.phase == IdleSeq && s.watch.seqLost && s.sib.radio.Live()
        && now - Later(s.watch.seqLostAt, s.watch.lastTx) < LOST_IDLE_HOLD)
  }

  function Later(a: int, b: Option<int>): int { if b.Some? && b.value > a then b.value else a }

  function PresenceNow(s: State, now: int): Presence {
    if BaseManned(s, now) || (s.watch.unmannedSince.Some? && now - s.watch.unmannedSince.value < PRESENCE_DWELL)
    then Manned else Unmanned
  }

  function PresenceTracked(s: State, now: int): State {
    if BaseManned(s, now) then s.(watch := s.watch.(wasManned := true, unmannedSince := None))
    else if s.watch.wasManned then s.(watch := s.watch.(wasManned := false, unmannedSince := Some(now)))
    else s
  }

  function TxNoted(s: State, now: int): State {
    if Transmitting(s.sib) then s.(watch := s.watch.(lastTx := Some(now))) else s
  }

  // ------------------------------------------------------------- one step

  datatype Warning = Warning(id: Id, onset: int, expires: Option<int>)

  function ActiveIds(ws: seq<Warning>, now: int): seq<Id> {
    if ws == [] then []
    else (if ws[0].onset <= now && (ws[0].expires.None? || now < ws[0].expires.value) then [ws[0].id] else [])
         + ActiveIds(ws[1..], now)
  }

  /** Automatic entry, if it is due. */
  function AutoEntered(c: Config, w: World, s: State, active: seq<Id>, now: int): State {
    var p := Evaluated(c.policy, s.pol, now, active, PresenceNow(s, now));
    if p.s.mode == s.pol.s.mode then s else ModeChanged(c, w, s.(pol := p), s.pol.s.mode, now)
  }

  /** In a storm whose park is not done, a borrow once per sequence number. */
  predicate LateBorrowOpen(s: State) {
    s.park.lock.Some? && s.supply.borrow.None? && s.pol.s.mode == StormMode && s.park.phase != Parked
    && s.supply.borrowSeq != LockSeq(s)
  }

  function LateBorrowed(c: Config, w: World, s: State, now: int): State {
    if LateBorrowOpen(s) then BorrowStarted(c, w, s, now) else s
  }

  function Stepped(c: Config, w: World, before: State, active: seq<Id>, wind: Option<Wind>, now: int): State {
    var s := PresenceTracked(TxNoted(before, now), now);
    var t := LateBorrowed(c, w, AutoEntered(c, w, s, active, now), now);
    BorrowStepped(c, w, if t.park.lock.Some? then LockStepped(c, w, t, wind, now) else t, now)
  }

  function Persisted(w: World, s: State): State {
    var snap := SnapshotOf(s);
    if s.journal.lastPersisted == Some(snap) then s
    else if w(|s.journal.log|) then s.(journal := Journal(s.journal.log + [Saved(snap)], Some(snap)))
    else Logged(s, SaveLost)
  }
}
