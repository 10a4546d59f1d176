/** The antenna-mode engine as it runs: fields updated in place by every handler and step on one worker, over its own
    policy object. Every method is proved to be the model's. */
module AntEngine {
  import opened Options
  import opened Policy
  import opened AntModel
  import opened AntEvents
  import opened AntLock
  import opened AntWatch
  import Heading

  class Machine {
    const cfg: Config
    const world: World       // whether the n-th save or power command ever tried succeeds
    const pol: AntPolicy
    // the lock and its sequence
    var lock: Option<Lock>
    var phase: Phase
    var phaseSince: int
    var fault: bool
    var nudgeBase: Option<real>
    var parkSeen: bool
    // the power borrow
    var borrow: Option<Borrow>
    var borrowSeq: int
    var borrowClock: int
    // siblings
    var seqr: PowerSeq
    var rot: Rotator
    var ant: Elements
    var sw: Switch
    var radio: AntModel.Radio
    var pwr: Power
    // presence and the last transmission
    var watch: Watch
    // the state file and the power command
    var log: seq<Effect>
    var lastPersisted: Option<Snapshot>
    // startup, and the slow inputs
    var boot: Boot
    var warnings: seq<Warning>
    var wind: Option<Wind>

    function ParkNow(): Park reads this { Park(lock, phase, phaseSince, fault, nudgeBase, parkSeen) }
    function SupplyNow(): Supply reads this { Supply(borrow, borrowSeq, borrowClock) }
    function SibNow(): Siblings reads this { Siblings(seqr, rot, ant, sw, radio, pwr) }

    function Now(): State reads this, pol {
      State(pol.Now(), ParkNow(), SupplyNow(), SibNow(), watch, Journal(log, lastPersisted))
    }

    function All(): Engine reads this, pol { Engine(Now(), boot, warnings, wind) }

    ghost predicate Valid() reads this, pol { pol.Valid() && pol.cfg == cfg.policy }

    /** Over a loaded state file, or none; past is what disk and power already carry. */
    constructor (c: Config, w: World, loaded: Option<Snapshot>, past: seq<Effect>, now: int)
      ensures cfg == c && world == w && Valid() && fresh(pol) && All() == Started(loaded, past, now)
    {
      var e := Started(loaded, past, now);
      cfg, world := c, w;
      pol := new AntPolicy(c.policy, if loaded.Some? then loaded.value.standing else ZERO.(seq_ := Seconds(now)));
      lock, phase, phaseSince, fault := e.s.park.lock, e.s.park.phase, e.s.park.since, e.s.park.fault;
      nudgeBase, parkSeen := e.s.park.nudgeBase, e.s.park.parkSeen;
      borrow, borrowSeq, borrowClock := e.s.supply.borrow, e.s.supply.borrowSeq, e.s.supply.clock;
      seqr, rot, ant, sw, radio, pwr := SILENT.seq_, SILENT.rot, SILENT.ant, SILENT.sw, SILENT.radio, SILENT.pwr;
      watch, log, lastPersisted := UNWATCHED, past, None;
      boot, warnings, wind := e.boot, [], None;
    }

    // ----------------------------------------------------------- phases

    method SetPhase(p: Phase, now: int)
      modifies `phase, `phaseSince
      ensures ParkNow() == Phased(old(ParkNow()), p, now)
    {
      if p == phase { return; }
      phase, phaseSince := p, now;
    }

    /** One save of the state file. */
    method Save(snap: Snapshot) returns (ok: bool)
      modifies `log
      ensures ok == world(|old(log)|) && log == old(log) + [if ok then Saved(snap) else SaveLost]
    {
      ok := world(|log|);
      log := log + [if ok then Saved(snap) else SaveLost];
    }

    method Persist()
      modifies `log, `lastPersisted
      ensures Now() == Persisted(world, old(Now()))
    {
      var snap := SnapshotOf(Now());
      if lastPersisted == Some(snap) { return; }
      var ok := Save(snap);
      if ok { lastPersisted := Some(snap); }
    }

    // ----------------------------------------------------------- the power borrow

    method SendPowerOn()
      requires borrow.Some?
      modifies `log, `borrow
      ensures Now() == OnSent(world, old(Now())) && borrow.Some?
    {
      var ok := world(|log|);
      log := log + [OnTried(ok, borrow.value.takenOver)];
      if ok { borrow := Some(borrow.value.(sent := true)); }
    }

    /** Switches antenna power on when it is off, in a stable powerseq phase only, and only once the borrow is saved. */
    method StartBorrowIfNeeded(now: int)
      modifies `borrow, `borrowSeq, `borrowClock, `fault, `phase, `phaseSince, `log, `lastPersisted
      ensures Now() == BorrowStarted(cfg, world, old(Now()), now)
    {
      if !cfg.borrows || borrow.Some? { return; }
      if !pwr.Live() || pwr.on != Some(false) { return; }
      if !seqr.status { return; }
      if seqr.phase != IdleSeq && seqr.phase != Standby && seqr.phase != Running { return; }
      TakeBorrow(now);
    }

    method OpenBorrow(now: int)
      modifies `borrow, `borrowSeq, `fault, `phase, `phaseSince
      ensures Now() == Borrowing(old(Now()), now)
    {
      hide Phased;
      borrow := Some(Borrow(seqr.phase, now, false, false, false));
      borrowSeq := if lock.Some? then lock.value.seq_ else 0;
      fault := false;
      SetPhase(AwaitingPower, now);
    }

    /** The borrow reaches the disk before the power command; a failed save takes it back. */
    method TakeBorrow(now: int)
      requires MayBorrow(cfg, Now())
      modifies `borrow, `borrowSeq, `borrowClock, `fault, `phase, `phaseSince, `log, `lastPersisted
      ensures Now() == BorrowStarted(cfg, world, old(Now()), now)
    {
      hide Phased, OnSent, SnapshotOf, MayBorrow, Borrowing;
      BorrowsWhenNone(cfg, Now(), now);
      var prev, prevFault, prevSeq := phase, fault, borrowSeq;
      OpenBorrow(now);
      var ok := Save(SnapshotOf(Now()));
      if !ok {
        GiveUpBorrow(prev, prevFault, prevSeq, now);
        return;
      }
      lastPersisted := None;
      borrowClock := now;
      SendPowerOn();
    }

    method GiveUpBorrow(prev: Phase, prevFault: bool, prevSeq: int, now: int)
      modifies `borrow, `borrowSeq, `fault, `phase, `phaseSince
      ensures Now() == old(Now()).(supply := Supply(None, prevSeq, borrowClock),
                                   park := Phased(old(ParkNow()).(fault := prevFault), prev, now))
    {
      hide Phased;
      borrow, fault, borrowSeq := None, prevFault, prevSeq;
      SetPhase(prev, now);
    }

    /** Gives a new lock its power. */
    method AttachBorrow(now: int)
      modifies `borrow, `borrowSeq, `borrowClock, `fault, `phase, `phaseSince, `log, `lastPersisted
      ensures Now() == BorrowAttached(cfg, world, old(Now()), now)
    {
      hide BorrowStarted;
      if borrow.Some? && borrow.value.takenOver { borrow := None; }
      if borrow.None? {
        StartBorrowIfNeeded(now);
        return;
      }
      borrow := Some(borrow.value.(restore := false));
      borrowSeq := if lock.Some? then lock.value.seq_ else 0;
      if !(pwr.Live() && pwr.on == Some(true)) {
        borrow := Some(borrow.value.(sent := false));
        SetPhase(AwaitingPower, now);
        borrowClock := now;
      }
    }

    /** Restores borrowed antenna power when it is due. */
    method StepBorrow(now: int)
      modifies `borrow, `log
      ensures Now() == BorrowStepped(cfg, world, old(Now()), now)
    {
      hide TakesOver;
      if borrow.None? { return; }
      NoteTakeover();
      var due := borrow.value.restore || (pol.s.mode == StormMode && (phase == Parked || phase == Failed));
      if due && !borrow.value.restore && phase == Failed && rot.Live() && rot.moving
         && now - phaseSince < cfg.timeouts.rotate { return; }
      if !due { return; }
      if borrow.value.takenOver {
        borrow := None;
        return;
      }
      if !seqr.status || seqr.phase == NoPhase { return; }
      var ok := world(|log|);
      log := log + [if ok then OffSent else OffLost];
      if ok { borrow := None; }
    }

    /** powerseq running an operator's phase owns the power from then on. */
    method NoteTakeover()
      requires borrow.Some?
      modifies `borrow, `log
      ensures var s := old(Now());
        Now() == if TakesOver(s) then Logged(WithBorrow(s, Some(s.supply.borrow.value.(takenOver := true))), TookOver) else s
      ensures borrow.Some?
    {
      if !borrow.value.takenOver && seqr.status && seqr.phase != NoPhase && seqr.phase != borrow.value.startPhase
         && !DeEnergised(seqr.phase) {
        borrow := Some(borrow.value.(takenOver := true));
        log := log + [TookOver];
      }
    }

    // ----------------------------------------------------------- mode changes

    /** What a nudge under this lock will be told from; nothing has been seen under it yet. */
    method CaptureNudgeBase()
      modifies `nudgeBase, `parkSeen
      ensures Now() == NudgeBased(old(Now()))
    {
      nudgeBase, parkSeen := None, false;
      if rot.target.Some? { nudgeBase := rot.target; }
    }

    /** Runs the park again on the current lock with the new sequence number. */
    method RestartPark(now: int)
      requires lock.Some?
      modifies `lock, `phase, `phaseSince, `fault, `nudgeBase, `parkSeen, `borrow, `borrowSeq, `borrowClock, `log, `lastPersisted
      ensures Now() == ParkRestarted(cfg, world, old(Now()), now)
    {
      hide BorrowAttached, NudgeBased;
      RewindPark(now);
      CaptureNudgeBase();
      AttachBorrow(now);
    }

    /** Back to grounding or retracting, what is built left standing and the azimuth open again. */
    method RewindPark(now: int)
      requires lock.Some?
      modifies `lock, `phase, `phaseSince, `fault
      ensures var l := old(lock).value.(seq_ := pol.s.seq_, parkAz := None);
        ParkNow() == Park(Some(l), if l.retract then Retracting else Grounding, now, false, nudgeBase, parkSeen)
    {
      lock := Some(lock.value.(seq_ := pol.s.seq_, parkAz := None));
      fault := false;
      if lock.value.retract { SetPhase(Retracting, now); } else { SetPhase(Grounding, now); }
      phaseSince := now;
    }

    /** The lock follows the mode the policy has just changed to. */
    method OnModeChanged(from: Mode, now: int)
      requires (lock.Some? <==> from != Normal) && pol.s.mode != from
      modifies `lock, `phase, `phaseSince, `fault, `nudgeBase, `parkSeen, `borrow, `borrowSeq, `borrowClock, `log, `lastPersisted
      ensures Now() == ModeChanged(cfg, world, old(Now()), from, now)
    {
      hide BorrowAttached, ParkRestarted, Phased, NudgeBased;
      var to := pol.s.mode;
      fault := false;
      if to == Normal {
        Unlock(now);
      } else if from == Normal {
        LockFresh(now);
        AttachBorrow(now);
      } else {
        lock := Some(lock.value.(nudge := to == Maintenance));
        RestartPark(now);
      }
    }

    method Unlock(now: int)
      modifies `lock, `phase, `phaseSince, `nudgeBase, `borrow
      ensures var b := old(SupplyNow()).borrow;
        Now() == old(Now()).(park := Phased(old(ParkNow()).(lock := None, nudgeBase := None), Idle, now),
                             supply := old(SupplyNow()).(borrow := if b.Some? then Some(b.value.(restore := true)) else None))
    {
      hide Phased;
      lock, nudgeBase := None, None;
      SetPhase(Idle, now);
      if borrow.Some? { borrow := Some(borrow.value.(restore := true)); }
    }

    method LockFresh(now: int)
      modifies `lock, `phase, `phaseSince, `nudgeBase, `parkSeen
      ensures var l := Lock(pol.s.seq_, true, false, None, pol.s.mode == Maintenance);
        Now() == NudgeBased(old(Now()).(park := Phased(old(ParkNow()).(lock := Some(l)), Grounding, now)))
    {
      hide Phased, NudgeBased;
      lock := Some(Lock(pol.s.seq_, true, false, None, pol.s.mode == Maintenance));
      SetPhase(Grounding, now);
      CaptureNudgeBase();
    }

    // ----------------------------------------------------------- the lock sequence

    method NoteParkTarget(reported: bool)
      modifies `parkSeen
      ensures ParkNow() == ParkTargetNoted(cfg, rot, old(ParkNow()), reported)
    {
      if !rot.Live() {
        parkSeen := false;
        return;
      }
      if lock.None? || lock.value.parkAz.None? || parkSeen { return; }
      var park := lock.value.parkAz.value;
      if rot.target.Some? {
        parkSeen := WithinTolerance(cfg, rot.target.value, park as real);
      } else {
        parkSeen := park == 0 && reported && rot.moving;
      }
    }

    /** Sets the park azimuth: the wind heading in a storm, the preset in maintenance; once per sequence number. */
    method ComputePark(now: int)
      requires lock.Some?
      modifies `lock, `phase, `phaseSince, `parkSeen
      ensures Now() == ParkComputed(cfg, old(Now()), wind, now)
    {
      hide ParkTargetNoted, Phased, ParkAzimuth;
      lock := Some(lock.value.(retract := true));
      if lock.value.parkAz.Some? {
        SetPhase(Rotating, now);
        return;
      }
      var az := AimPark(now);
      lock := Some(lock.value.(parkAz := Some(az)));
      SetPhase(Rotating, now);
      NoteParkTarget(false);
    }

    method AimPark(now: int) returns (az: int)
      ensures az == ParkAzimuth(cfg, pol.s.mode, rot, wind, now)
    {
      hide Heading.StormAz;
      if pol.s.mode != StormMode { return cfg.maintenanceAz; }
      var known := wind.Some? && now - wind.value.at <= cfg.windStale;
      var dir := 0.0;
      if wind.Some? { dir := wind.value.dirDeg; }
      az := Heading.Storm(Heading.Inputs(dir, known, rot.az.GetOr(0.0), rot.Live() && rot.az.Some?, cfg.maxAz, cfg.fallbackAz));
    }

    method StepLock(now: int)
      requires lock.Some?
      modifies `lock, `phase, `phaseSince, `fault, `parkSeen, `borrow, `log
      ensures Now() == LockStepped(cfg, world, old(Now()), wind, now)
    {
      hide ParkComputed, OnSent, AtPark, Nudged, ParkTargetNoted;
      match phase
      case AwaitingPower => StepAwaitingPower(now);
      case AwaitingDevices =>
        if (rot.Live() && ant.Live()) || now - borrowClock >= cfg.timeouts.devices { SetPhase(Grounding, now); }
      case Grounding => StepGrounding(now);
      case Retracting =>
        var confirmed := ant.Live() && ant.retractSeq == Some(lock.value.seq_) && ant.retracted && !ant.moving;
        if confirmed || now - phaseSince >= cfg.timeouts.retract { ComputePark(now); }
      case Rotating => StepRotating(now);
      case Failed =>
        if lock.value.parkAz.Some? && (AtPark(cfg, rot, ParkNow()) || Nudged(cfg, pol.s.mode, rot, ParkNow())) {
          fault := false;
          SetPhase(Parked, now);
        }
      case _ =>
    }

    method StepAwaitingPower(now: int)
      requires lock.Some? && phase == AwaitingPower
      modifies `phase, `phaseSince, `borrow, `log
      ensures Now() == LockStepped(cfg, world, old(Now()), wind, now)
    {
      hide OnSent;
      if borrow.None? {
        SetPhase(Grounding, now);
        return;
      }
      if !borrow.value.sent {
        SendPowerOn();
        SentKeeps(world, old(Now()));
      }
      if pwr.Live() && pwr.on == Some(true) {
        SetPhase(AwaitingDevices, now);
      } else if now - borrowClock >= cfg.timeouts.devices {
        SetPhase(Grounding, now);
      }
    }

    method StepGrounding(now: int)
      requires lock.Some? && phase == Grounding
      modifies `lock, `phase, `phaseSince
      ensures Now() == LockStepped(cfg, world, old(Now()), wind, now)
    {
      if sw.Live() && sw.off {
        lock := Some(lock.value.(retract := true));
        SetPhase(Retracting, now);
        return;
      }
      if now - phaseSince < cfg.timeouts.ground { return; }
      if Transmitting(SibNow()) || (watch.lastTx.Some? && now - watch.lastTx.value < cfg.timeouts.txQuiet) { return; }
      lock := Some(lock.value.(retract := true));
      SetPhase(Retracting, now);
    }

    method StepRotating(now: int)
      requires lock.Some? && phase == Rotating
      modifies `phase, `phaseSince, `fault, `parkSeen
      ensures Now() == LockStepped(cfg, world, old(Now()), wind, now)
    {
      hide AtPark, Nudged, ParkTargetNoted, Phased;
      var since := phaseSince;
      NoteParkTarget(false);
      TargetKeeps(cfg, rot, old(ParkNow()));
      if AtPark(cfg, rot, ParkNow()) || Nudged(cfg, pol.s.mode, rot, ParkNow()) {
        fault := false;
        SetPhase(Parked, now);
      } else if now - since >= cfg.timeouts.rotate {
        fault := true;
        SetPhase(Failed, now);
      }
    }

    // ----------------------------------------------------------- one step

    method TrackPresence(now: int)
      modifies `watch
      ensures Now() == PresenceTracked(old(Now()), now)
    {
      if BaseManned(Now(), now) {
        watch := watch.(wasManned := true, unmannedSince := None);
      } else if watch.wasManned {
        watch := watch.(wasManned := false, unmannedSince := Some(now));
      }
    }

    method NoteTx(now: int)
      modifies `watch
      ensures Now() == TxNoted(old(Now()), now)
    {
      if Transmitting(SibNow()) { watch := watch.(lastTx := Some(now)); }
    }

    /** The automatic storm entry, if it is due. */
    method EnterIfDue(now: int)
      requires Valid() && Ok(Now())
      modifies this, pol
      ensures Now() == AutoEntered(cfg, world, old(Now()), ActiveIds(warnings, now), now)
      ensures Valid() && boot == old(boot) && warnings == old(warnings) && wind == old(wind)
    {
      hide ModeChanged, Evaluated, PresenceNow;
      ghost var s := Now();
      var from := pol.s.mode;
      LockWhenLocked(s);
      var changed := pol.Evaluate(now, ActiveIds(warnings, now), PresenceNow(Now(), now));
      EvaluatedSame(cfg.policy, s.pol, now, ActiveIds(warnings, now), PresenceNow(s, now));
      if changed { OnModeChanged(from, now); }
    }

    /** Advances the lock and the borrow; also runs the automatic storm entry. */
    method Step(now: int)
      requires Valid() && Ok(Now())
      modifies this, pol
      ensures Now() == Stepped(cfg, world, old(Now()), ActiveIds(warnings, now), wind, now)
      ensures Valid() && boot == old(boot) && warnings == old(warnings) && wind == old(wind)
    {
      hide TxNoted, PresenceTracked, AutoEntered, LateBorrowed, LockStepped, BorrowStepped, Ok;
      TrackedOk(Now(), now);
      NoteTx(now);
      TrackPresence(now);
      EnterIfDue(now);
      BorrowLate(now);
      Advance(now);
    }

    /** The late borrow of a storm whose park is not done. */
    method BorrowLate(now: int)
      modifies `borrow, `borrowSeq, `borrowClock, `fault, `phase, `phaseSince, `log, `lastPersisted
      ensures Now() == LateBorrowed(cfg, world, old(Now()), now)
    {
      hide BorrowStarted;
      if lock.Some? && borrow.None? && pol.s.mode == StormMode && phase != Parked && borrowSeq != lock.value.seq_ {
        StartBorrowIfNeeded(now);
      }
    }

    method Advance(now: int)
      modifies `lock, `phase, `phaseSince, `fault, `parkSeen, `borrow, `log
      ensures var s := old(Now());
        Now() == BorrowStepped(cfg, world, if s.park.lock.Some? then LockStepped(cfg, world, s, wind, now) else s, now)
    {
      hide LockStepped, BorrowStepped;
      if lock.Some? { StepLock(now); }
      StepBorrow(now);
    }

    method StepAndPersist(now: int)
      requires Valid() && Ok(Now())
      modifies this, pol
      ensures All() == SteppedAndSaved(cfg, world, old(All()), now) && Valid()
    {
      hide Stepped, Persisted, Ok;
      Step(now);
      Persist();
    }

    // ----------------------------------------------------------- commands

    method ApplyCmd(cmd: Command, now: int)
      requires Valid() && Ok(Now())
      modifies this, pol
      ensures Now() == Applied(cfg, world, old(Now()), cmd, ActiveIds(warnings, now), now) && Ok(Now())
      ensures Valid() && boot == old(boot) && warnings == old(warnings) && wind == old(wind)
    {
      hide ModeChanged, ParkRestarted, ModeSet, Dismissed, ActiveIds, LockOk, BorrowOk;
      ghost var s := Now();
      AppliedOk(cfg, world, s, cmd, ActiveIds(warnings, now), now);
      LockWhenLocked(s);
      if Dropped(cmd, now) { return; }
      match cmd.action
      case SetAntMode(mode) =>
        if mode.None? { return; }
        var from := pol.s.mode;
        ModeIsSet(s.pol, mode.value, now, ActiveIds(warnings, now));
        var changed := pol.SetMode(mode.value, now, ActiveIds(warnings, now));
        if changed { OnModeChanged(from, now); }
      case ReparkAction =>
        var reparked := pol.Repark();
        if reparked { RestartPark(now); }
      case DismissAction => pol.Dismiss(ActiveIds(warnings, now));
      case OtherAction =>
    }

    /** Every command is one-shot; before the startup hold ends it is queued. */
    method OnCmd(cmd: Command, now: int)
      requires Valid() && Ok(Now())
      modifies this, pol
      ensures All() == AntEvents.Step(cfg, world, old(All()), Cmd(cmd), now) && Valid()
    {
      hide Applied, SteppedAndSaved, Ok;
      if !boot.ready {
        if |boot.pending| < MAX_PENDING { boot := boot.(pending := boot.pending + [cmd]); }
        return;
      }
      ApplyCmd(cmd, now);
      StepAndPersist(now);
    }

    // ----------------------------------------------------------- startup

    method BecomeReady(now: int)
      requires Valid() && Ok(Now())
      modifies this, pol
      ensures All() == BecameReady(cfg, world, old(All()), now) && Valid()
    {
      hide Applied, SteppedAndSaved, Ok, ActiveIds;
      ghost var s := Now();
      phaseSince := now;
      if borrow.Some? { borrowClock := now; }
      ClockedOk(s, Now());
      ghost var t := Now();
      var cmds := boot.pending;
      boot := boot.(ready := true, adopt := false, pending := []);
      ghost var b := boot;
      for i := 0 to |cmds|
        invariant Valid() && Ok(Now()) && boot == b && warnings == old(warnings) && wind == old(wind)
        invariant Now() == AppliedAll(cfg, world, t, cmds[..i], ActiveIds(warnings, now), now)
      {
        assert cmds[..i + 1][..i] == cmds[..i];
        ApplyCmd(cmds[i], now);
      }
      assert cmds[..|cmds|] == cmds;
      StepAndPersist(now);
    }

    method Tick(now: int)
      requires Valid() && Ok(Now())
      modifies this, pol
      ensures All() == AntEvents.Step(cfg, world, old(All()), Event.Tick, now) && Valid()
    {
      hide BecameReady, SteppedAndSaved, Ok;
      if !boot.ready {
        if boot.connected && boot.firstConnect.Some? && now >= boot.firstConnect.value + STARTUP_HOLD { BecomeReady(now); }
        return;
      }
      StepAndPersist(now);
    }

    method SetConnected(on: bool, now: int)
      modifies `boot
      ensures All() == AntEvents.Step(cfg, world, old(All()), Event.SetConnected(on), now)
    {
      boot := boot.(connected := on);
      if on && boot.firstConnect.None? { boot := boot.(firstConnect := Some(now)); }
    }

    // ----------------------------------------------------------- slow inputs

    method OnWindResult(dir: Option<real>, now: int)
      requires Valid() && Ok(Now())
      modifies this, pol
      ensures All() == AntEvents.Step(cfg, world, old(All()), WindResult(dir), now) && Valid()
    {
      hide SteppedAndSaved, Ok;
      if dir.Some? { wind := Some(Wind(dir.value, now)); }
      if boot.ready { StepAndPersist(now); }
    }

    method OnNinaResult(found: Option<seq<Warning>>, now: int)
      requires Valid() && Ok(Now())
      modifies this, pol
      ensures All() == AntEvents.Step(cfg, world, old(All()), NinaResult(found), now) && Valid()
    {
      hide SteppedAndSaved, Ok, ModeChanged, Polled, ActiveIds;
      ghost var s := Now();
      if found.Some? { warnings := found.value; }
      if !boot.ready { return; }
      LockWhenLocked(s);
      NinaPolledOk(cfg, world, s, found, now);
      var from := pol.s.mode;
      var changed := pol.Poll(now, if found.Some? then Some(ActiveIds(found.value, now)) else None);
      if changed { OnModeChanged(from, now); }
      StepAndPersist(now);
    }

    // ----------------------------------------------------------- bus inputs

    method InputChanged(now: int)
      requires Valid() && Ok(Now())
      modifies this, pol
      ensures All() == (if old(boot).ready then SteppedAndSaved(cfg, world, old(All()), now) else old(All())) && Valid()
    {
      hide SteppedAndSaved, Ok;
      if boot.ready { StepAndPersist(now); }
    }

    method OnStatus(slot: Slot, online: bool, now: int)
      requires Valid() && Ok(Now())
      modifies this, pol
      ensures All() == AntEvents.Step(cfg, world, old(All()), Bus(Status(slot, online)), now) && Valid()
    {
      hide SteppedAndSaved, Ok;
      HeardOk(cfg, Now(), Status(slot, online), now);
      SetStatus(slot, online);
      InputChanged(now);
    }

    method SetStatus(slot: Slot, online: bool)
      modifies `seqr, `rot, `ant, `sw, `radio, `pwr, `parkSeen
      ensures Now() == Heard(cfg, old(Now()), Status(slot, online), 0)
    {
      hide ParkTargetNoted;
      match slot {
        case SeqSlot => seqr := seqr.(status := online);
        case RotSlot =>
          rot := rot.(status := online);
          NoteParkTarget(false);
        case AntSlot => ant := ant.(status := online);
        case SwSlot => sw := sw.(status := online);
        case RadioSlot => radio := radio.(status := online);
        case PowerSlot => pwr := pwr.(status := online);
      }
    }

    method OnPowerSeqState(p: Option<SeqPhase>, now: int)
      requires Valid() && Ok(Now())
      modifies this, pol
      ensures All() == AntEvents.Step(cfg, world, old(All()), Bus(SeqState(p)), now) && Valid()
    {
      hide SteppedAndSaved, Ok;
      HeardOk(cfg, Now(), SeqState(p), now);
      if p.None? {
        seqr := seqr.(phase := NoPhase);
      } else {
        if p.value == IdleSeq && (seqr.phase == Starting || seqr.phase == Running || seqr.phase == Waking) {
          watch := watch.(seqLost := true, seqLostAt := now);
        } else if p.value != IdleSeq {
          watch := watch.(seqLost := false);
        }
        seqr := seqr.(phase := p.value);
      }
      InputChanged(now);
    }

    method OnRotatorState(az: Option<real>, target: Option<real>, moving: bool, device: Option<bool>, now: int)
      requires Valid() && Ok(Now())
      modifies this, pol
      ensures All() == AntEvents.Step(cfg, world, old(All()), Bus(RotState(az, target, moving, device)), now) && Valid()
    {
      hide SteppedAndSaved, Ok, ParkTargetNoted;
      HeardOk(cfg, Now(), RotState(az, target, moving, device), now);
      if az.Some? { rot := rot.(az := az); }
      rot := rot.(target := target, moving := moving, device := device.GetOr(true));
      NoteParkTarget(true);
      InputChanged(now);
    }

    method OnAntCtrlState(retracted: bool, retractSeq: Option<int>, moving: bool, device: Option<bool>, now: int)
      requires Valid() && Ok(Now())
      modifies this, pol
      ensures All() == AntEvents.Step(cfg, world, old(All()), Bus(AntState(retracted, retractSeq, moving, device)), now) && Valid()
    {
      hide SteppedAndSaved, Ok;
      HeardOk(cfg, Now(), AntState(retracted, retractSeq, moving, device), now);
      ant := ant.(retracted := retracted, moving := moving, device := device.GetOr(true), retractSeq := retractSeq);
      InputChanged(now);
    }

    method OnAntSwitchState(off: bool, device: Option<bool>, now: int)
      requires Valid() && Ok(Now())
      modifies this, pol
      ensures All() == AntEvents.Step(cfg, world, old(All()), Bus(SwState(off, device)), now) && Valid()
    {
      hide SteppedAndSaved, Ok;
      HeardOk(cfg, Now(), SwState(off, device), now);
      sw := sw.(off := off, device := device.GetOr(true));
      InputChanged(now);
    }

    method OnRadioState(tx: bool, device: Option<bool>, now: int)
      requires Valid() && Ok(Now())
      modifies this, pol
      ensures All() == AntEvents.Step(cfg, world, old(All()), Bus(RadioState(tx, device)), now) && Valid()
    {
      hide SteppedAndSaved, Ok, TxNoted;
      HeardOk(cfg, Now(), RadioState(tx, device), now);
      NotedRadio(Now(), now);
      NoteTx(now);
      radio := radio.(tx := tx, device := device.GetOr(true));
      NoteTx(now);
      InputChanged(now);
    }

    method OnPowerState(on: Option<bool>, device: Option<bool>, now: int)
      requires Valid() && Ok(Now())
      modifies this, pol
      ensures All() == AntEvents.Step(cfg, world, old(All()), Bus(PowerState(on, device)), now) && Valid()
    {
      hide SteppedAndSaved, Ok;
      HeardOk(cfg, Now(), PowerState(on, device), now);
      pwr := pwr.(on := on, device := device.GetOr(true));
      InputChanged(now);
    }

    // ----------------------------------------------------------- adoption

    /** The retained own state: its sequence number is learned, and a newer locked state adopted. */
    method OnOwnState(raw: Option<Published>, now: int)
      requires Valid()
      modifies this, pol
      ensures All() == AntEvents.Step(cfg, world, old(All()), OwnState(raw), now) && Valid()
    {
      hide Adopted, Parsed;
      if boot.ready || raw.None? { return; }
      var parsed := Parsed(raw.value);
      if parsed.None? { return; }
      var doc := parsed.value;
      ParsedLocked(raw.value);
      LearnSeq(doc.seq_);
      if doc.mode == Normal || (!boot.adopt && doc.lock.value.seq_ <= boot.fileSeq) { return; }
      Adopt(doc, now);
    }

    method LearnSeq(q: int)
      requires pol.Valid()
      modifies pol
      ensures pol.Valid() && pol.lastClean == old(pol.lastClean)
      ensures pol.s == if q > old(pol.s).seq_ then old(pol.s).(seq_ := q) else old(pol.s)
    {
      if q > pol.s.seq_ { pol.s := pol.s.(seq_ := q); }
    }

    method Adopt(doc: Published, now: int)
      requires Valid() && doc.lock.Some?
      modifies `lock, `phase, `fault, `borrow, `borrowSeq, `borrowClock, pol
      ensures Now() == Adopted(old(Now()), doc, now) && Valid()
    {
      hide Normalized;
      var l := doc.lock.value;
      AdoptMode(doc);
      lock, phase, fault := Some(l), doc.phase.GetOr(Idle), false;
      AdoptBorrow(doc);
      NormalizeLoaded(now);
    }

    method AdoptBorrow(doc: Published)
      requires doc.lock.Some?
      modifies `borrow, `borrowSeq
      ensures borrow == if doc.borrow.None? then None
                        else Some(Borrow(doc.borrow.value.startPhase, doc.borrow.value.since * 1000,
                                         doc.phase != Some(AwaitingPower), false, doc.borrow.value.takenOver))
      ensures borrowSeq == if doc.borrow.Some? then doc.lock.value.seq_ else old(borrowSeq)
    {
      borrow := None;
      if doc.borrow.Some? {
        borrow := Some(Borrow(doc.borrow.value.startPhase, doc.borrow.value.since * 1000, doc.phase != Some(AwaitingPower), false,
                              doc.borrow.value.takenOver));
        borrowSeq := doc.lock.value.seq_;
      }
    }

    method AdoptMode(doc: Published)
      requires pol.Valid() && doc.lock.Some?
      modifies pol
      ensures pol.Valid() && pol.lastClean == old(pol.lastClean)
      ensures var was := old(pol.s); var q := doc.lock.value.seq_;
        pol.s == was.(mode := doc.mode, seq_ := if q > was.seq_ then q else was.seq_, source := doc.source,
                      since := doc.since * 1000, quietFor := 0)
    {
      pol.s := pol.s.(mode := doc.mode, source := doc.source, since := doc.since * 1000, quietFor := 0);
      if doc.lock.value.seq_ > pol.s.seq_ { pol.s := pol.s.(seq_ := doc.lock.value.seq_); }
    }

    /** Repairs a loaded or adopted state toward safety. */
    method NormalizeLoaded(now: int)
      modifies `lock, `phase, `borrow, `borrowClock
      ensures Now() == Normalized(old(Now()), now)
    {
      if pol.s.mode == Normal {
        lock, phase := None, Idle;
        if borrow.Some? { borrow := Some(borrow.value.(restore := true)); }
        return;
      }
      if lock.None? { lock := Some(ZERO_LOCK.(seq_ := pol.s.seq_)); }
      lock := Some(lock.value.(ground := true, nudge := pol.s.mode == Maintenance));
      if phase == Idle { phase := Grounding; }
      if borrow.Some? { borrowClock := now; }
    }
  }

  lemma {:induction false} ParsedLocked(d: Published)
    ensures Parsed(d).Some? ==> (Parsed(d).value.mode != Normal <==> Parsed(d).value.lock.Some?)
  {}

  lemma {:induction false} NotedRadio(s: State, now: int)
    ensures TxNoted(s, now) == s.(watch := TxNoted(s, now).watch)
  {}

  lemma {:induction false} LockWhenLocked(s: State)
    requires Ok(s)
    ensures s.park.lock.Some? <==> s.pol.s.mode != Normal
  {}

  lemma {:induction false} EvaluatedSame(c: PolicyConfig, p: Pol, now: int, active: seq<Id>, presence: Presence)
    ensures Evaluated(c, p, now, active, presence).s.mode == p.s.mode ==> Evaluated(c, p, now, active, presence) == p
  {}

  lemma {:induction false} ModeIsSet(p: Pol, m: Mode, now: int, active: seq<Id>)
    ensures ModeSet(p, m, now, active).s.mode == m && (m == p.s.mode ==> ModeSet(p, m, now, active) == p)
  {}

  lemma {:induction false} BorrowsWhenNone(c: Config, s: State, now: int)
    requires MayBorrow(c, s)
    ensures s.supply.borrow.None?
    ensures var t := Borrowing(s, now); t.supply.borrow.Some? && t.journal == s.journal && t.supply.clock == s.supply.clock
  {}

  lemma {:induction false} SentKeeps(w: World, s: State)
    requires s.supply.borrow.Some?
    ensures var t := OnSent(w, s);
      t.park == s.park && t.pol == s.pol && t.sib == s.sib && t.watch == s.watch && t.supply.clock == s.supply.clock
  {}

  lemma {:induction false} TargetKeeps(c: Config, r: Rotator, k: Park)
    ensures ParkTargetNoted(c, r, k, false) == k.(parkSeen := ParkTargetNoted(c, r, k, false).parkSeen)
  {}
}
