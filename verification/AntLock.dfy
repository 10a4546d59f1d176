/** The structure of the antenna lock over whole runs: when it exists, what its parts imply, how it grows, and how its
    sequence numbers advance. */
module AntLock {
  import opened Options
  import opened Policy
  import opened AntModel
  import opened AntEvents
  import Heading

  // ------------------------------------------------------------- what the lock always satisfies

  predicate LockOk(mode: Mode, lock: Option<Lock>, phase: Phase, seq_: int) {
    && (lock.Some? <==> mode != Normal)
    && (lock.None? <==> phase == Idle)
    && (lock.Some? ==> BuiltInOrder(mode, lock.value, phase) && lock.value.seq_ <= seq_)
  }

  /** Ground always; a park azimuth only once retracting, and in range; each phase has what it works with. */
  predicate BuiltInOrder(mode: Mode, l: Lock, phase: Phase) {
    && l.ground && l.nudge == (mode == Maintenance)
    && (l.parkAz.Some? ==> l.retract && 0 <= l.parkAz.value <= MAX_AZIMUTH)
    && (phase == Rotating || phase == Parked || phase == Failed ==> l.parkAz.Some?)
    && (phase == Retracting ==> l.retract)
  }

  /** A restore is pending exactly when the borrow has outlived the mode. */
  predicate BorrowOk(mode: Mode, b: Option<Borrow>) { b.Some? ==> (b.value.restore <==> mode == Normal) }

  predicate Ok(s: State) {
    LockOk(s.pol.s.mode, s.park.lock, s.park.phase, s.pol.s.seq_) && BorrowOk(s.pol.s.mode, s.supply.borrow)
  }

  /** The lock of t is that of s, further built: same sequence number, retract kept, the azimuth kept once set. */
  predicate Grown(s: State, t: State) {
    && s.park.lock.Some? && t.park.lock.Some?
    && t.park.lock.value.seq_ == s.park.lock.value.seq_
    && (s.park.lock.value.retract ==> t.park.lock.value.retract)
    && (s.park.lock.value.parkAz.Some? ==> t.park.lock.value.parkAz == s.park.lock.value.parkAz)
  }

  // ------------------------------------------------------------- one operation at a time

  lemma {:induction false} BorrowStartedOk(c: Config, w: World, s: State, now: int)
    requires s.park.lock.Some? && Ok(s)
    ensures var t := BorrowStarted(c, w, s, now);
      && Ok(t) && t.park.lock == s.park.lock && t.pol == s.pol && t.sib == s.sib && t.watch == s.watch
      && ((t.park.phase == s.park.phase && t.park.since in {s.park.since, now}) || t.park.phase == AwaitingPower)
  {}

  lemma {:induction false} BorrowAttachedOk(c: Config, w: World, s: State, now: int)
    requires s.park.lock.Some? && s.pol.s.mode != Normal && LockOk(s.pol.s.mode, s.park.lock, s.park.phase, s.pol.s.seq_)
    ensures var t := BorrowAttached(c, w, s, now);
      && Ok(t) && t.park.lock == s.park.lock && t.pol == s.pol && t.sib == s.sib && t.watch == s.watch
      && ((t.park.phase == s.park.phase && t.park.since in {s.park.since, now}) || t.park.phase == AwaitingPower)
  {
    hide BorrowStarted;
    if s.supply.borrow.None? || s.supply.borrow.value.takenOver {
      BorrowStartedOk(c, w, s.(supply := s.supply.(borrow := None)), now);
    }
  }

  lemma {:induction false} ParkRestartedOk(c: Config, w: World, s: State, now: int)
    requires s.park.lock.Some? && s.pol.s.mode != Normal
    requires var l := s.park.lock.value;
      l.ground && l.nudge == (s.pol.s.mode == Maintenance)
    ensures var t := ParkRestarted(c, w, s, now); var l := s.park.lock.value;
      && Ok(t) && t.pol == s.pol && t.sib == s.sib && t.watch == s.watch
      && t.park.lock == Some(l.(seq_ := s.pol.s.seq_, parkAz := None))
      && t.park.since == now
      && t.park.phase in {AwaitingPower, if l.retract then Retracting else Grounding}
  {
    hide BorrowAttached;
    var l := s.park.lock.value.(seq_ := s.pol.s.seq_, parkAz := None);
    var k := Park(Some(l), if l.retract then Retracting else Grounding, now, false, s.park.nudgeBase, s.park.parkSeen);
    BorrowAttachedOk(c, w, NudgeBased(s.(park := k)), now);
    SinceAttached(c, w, NudgeBased(s.(park := k)), now);
  }

  lemma {:induction false} SinceAttached(c: Config, w: World, s: State, now: int)
    requires s.park.since == now
    ensures BorrowAttached(c, w, s, now).park.since == now
  {}

  /** A mode change, with the policy already in the new mode. */
  lemma {:induction false} ModeChangedOk(c: Config, w: World, s: State, from: Mode, seq_: int, now: int)
    requires LockOk(from, s.park.lock, s.park.phase, seq_) && s.pol.s.mode != from && BorrowOk(from, s.supply.borrow)
    ensures var t := ModeChanged(c, w, s, from, now);
      && Ok(t) && t.pol == s.pol && t.sib == s.sib && t.watch == s.watch
      && (s.pol.s.mode != Normal ==>
            && t.park.lock.Some? && t.park.lock.value.seq_ == s.pol.s.seq_ && t.park.lock.value.parkAz.None?
            && (from == Normal ==> !t.park.lock.value.retract)
            && (t.park.lock.value.retract ==> s.park.lock.Some? && s.park.lock.value.retract)
            && (t.park.phase == Grounding ==> t.park.since == now))
  {
    hide BorrowAttached, ParkRestarted;
    var to := s.pol.s.mode;
    var cleared := s.(park := s.park.(fault := false));
    if to != Normal {
      if from == Normal {
        var l := Lock(s.pol.s.seq_, true, false, None, to == Maintenance);
        var t := NudgeBased(cleared.(park := Phased(cleared.park.(lock := Some(l)), Grounding, now)));
        BorrowAttachedOk(c, w, t, now);
        SinceAttached(c, w, t, now);
      } else {
        var l := s.park.lock.value.(nudge := to == Maintenance);
        ParkRestartedOk(c, w, cleared.(park := cleared.park.(lock := Some(l))), now);
      }
    }
  }

  // ------------------------------------------------------------- how an event moves the lock

  /** Sequence numbers never fall; a lock of t is that of s further built, or one with a number above all s ever used. */
  predicate Moved(s: State, t: State) {
    && t.pol.s.seq_ >= s.pol.s.seq_
    && (t.park.lock.Some? ==> Grown(s, t) || t.park.lock.value.seq_ > s.pol.s.seq_)
  }

  /** Nothing between s and t has ordered a retract or lengthened a grounding phase. */
  predicate NotRetracted(s: State, t: State, now: int) {
    && (t.park.lock.Some? && t.park.lock.value.retract ==> s.park.lock.Some? && s.park.lock.value.retract)
    && (t.park.phase == Grounding ==> t.park.since == now || (s.park.phase == Grounding && t.park.since == s.park.since))
  }

  lemma {:induction false} MovedOn(s: State, t: State, u: State)
    requires Moved(s, t) && Moved(t, u)
    ensures Moved(s, u)
  {}

  /** The policy's own moves: a locked mode newly entered takes a new number. */
  predicate Policed(p: Pol, q: Pol) {
    && q.s.seq_ >= p.s.seq_
    && (q.s.mode != p.s.mode && q.s.mode != Normal ==> q.s.seq_ > p.s.seq_)
  }

  /** A policy move followed by its effect on the lock. */
  lemma {:induction false} ModeMoved(c: Config, w: World, s: State, p: Pol, now: int)
    requires Ok(s) && Policed(s.pol, p)
    ensures var t := if p.s.mode == s.pol.s.mode then s.(pol := p) else ModeChanged(c, w, s.(pol := p), s.pol.s.mode, now);
      Ok(t) && Moved(s, t) && NotRetracted(s, t, now) && t.sib == s.sib && t.watch == s.watch
  {
    hide ModeChanged;
    if p.s.mode != s.pol.s.mode { ModeChangedOk(c, w, s.(pol := p), s.pol.s.mode, s.pol.s.seq_, now); }
  }

  lemma {:induction false} AutoEnteredOk(c: Config, w: World, s: State, active: seq<Id>, now: int)
    requires Ok(s)
    ensures var t := AutoEntered(c, w, s, active, now);
      Ok(t) && Moved(s, t) && NotRetracted(s, t, now) && t.sib == s.sib && t.watch == s.watch
  {
    hide ModeChanged;
    ModeMoved(c, w, s, Evaluated(c.policy, s.pol, now, active, PresenceNow(s, now)), now);
  }

  lemma {:induction false} LateBorrowedOk(c: Config, w: World, s: State, now: int)
    requires Ok(s)
    ensures var t := LateBorrowed(c, w, s, now);
      Ok(t) && Moved(s, t) && NotRetracted(s, t, now) && t.sib == s.sib && t.watch == s.watch && t.park.lock == s.park.lock
  {
    hide BorrowStarted;
    if LateBorrowOpen(s) { BorrowStartedOk(c, w, s, now); }
  }

  lemma {:induction false} ParkComputedOk(c: Config, s: State, wind: Option<Wind>, now: int)
    requires c.Valid() && s.park.lock.Some? && Ok(s) && s.park.phase == Retracting
    ensures var t := ParkComputed(c, s, wind, now);
      Ok(t) && Grown(s, t) && t == s.(park := t.park) && t.park.phase == Rotating && t.park.since == now
  {
    var az := ParkAzimuth(c, s.pol.s.mode, s.sib.rot, wind, now);
    assert 0 <= az <= MAX_AZIMUTH by {
      if s.pol.s.mode == StormMode {
        var known := wind.Some? && now - wind.value.at <= c.windStale;
        var dir := if wind.Some? then wind.value.dirDeg else 0.0;
        Heading.StormInRange(Heading.Inputs(dir, known, s.sib.rot.az.GetOr(0.0), s.sib.rot.Live() && s.sib.rot.az.Some?, c.maxAz, c.fallbackAz));
      }
    }
    hide ParkAzimuth;
  }

  /** What one lock step guarantees. */
  predicate LockStepOk(c: Config, s: State, t: State, now: int)
    requires s.park.lock.Some?
  {
    && Ok(t) && Grown(s, t) && t.pol == s.pol && t.sib == s.sib && t.watch == s.watch
    && (t.park.lock.value.retract && !s.park.lock.value.retract ==>
          SwitchedOff(s) || (s.park.phase == Grounding && now - s.park.since >= c.timeouts.ground && RadioQuiet(c, s, now)))
  }

  /** The retract is first ordered by a switch that is live and reports off, or after the ground timeout with the
      radio quiet; nothing else about an earlier lock is undone. */
  lemma {:induction false} LockSteppedOk(c: Config, w: World, s: State, wind: Option<Wind>, now: int)
    requires c.Valid() && s.park.lock.Some? && Ok(s)
    ensures LockStepOk(c, s, LockStepped(c, w, s, wind, now), now)
  {
    hide LockStepped, LockStepOk, Ok;
    match s.park.phase
    case AwaitingPower => WaitingOk(c, w, s, wind, now);
    case AwaitingDevices => WaitingOk(c, w, s, wind, now);
    case Grounding => GroundingOk(c, w, s, wind, now);
    case _ => ParkingOk(c, w, s, wind, now);
  }

  lemma {:induction false} WaitingOk(c: Config, w: World, s: State, wind: Option<Wind>, now: int)
    requires s.park.lock.Some? && Ok(s) && (s.park.phase == AwaitingPower || s.park.phase == AwaitingDevices)
    ensures LockStepOk(c, s, LockStepped(c, w, s, wind, now), now)
  {
    hide OnSent, RadioQuiet;
    if s.park.phase == AwaitingPower && s.supply.borrow.Some? { OnSentOk(w, s); }
  }

  lemma {:induction false} GroundingOk(c: Config, w: World, s: State, wind: Option<Wind>, now: int)
    requires s.park.lock.Some? && Ok(s) && s.park.phase == Grounding
    ensures LockStepOk(c, s, LockStepped(c, w, s, wind, now), now)
  {
    hide RadioQuiet, BorrowOk;
  }

  lemma {:induction false} ParkingOk(c: Config, w: World, s: State, wind: Option<Wind>, now: int)
    requires c.Valid() && s.park.lock.Some? && Ok(s) && s.park.phase !in {AwaitingPower, AwaitingDevices, Grounding}
    ensures LockStepOk(c, s, LockStepped(c, w, s, wind, now), now)
  {
    hide ParkComputed, AtPark, Nudged, ParkTargetNoted, RadioQuiet, RetractConfirmed, BorrowOk;
    if s.park.phase == Retracting { ParkComputedOk(c, s, wind, now); }
    if s.park.phase == Rotating { NotedOk(c, s.sib.rot, s.park, false); }
  }

  lemma {:induction false} OnSentOk(w: World, s: State)
    requires s.supply.borrow.Some?
    ensures var t := OnSent(w, s);
      && t.park == s.park && t.pol == s.pol && t.sib == s.sib && t.watch == s.watch && t.supply.clock == s.supply.clock
      && t.supply.borrowSeq == s.supply.borrowSeq
      && t.supply.borrow.Some? && t.supply.borrow.value == s.supply.borrow.value.(sent := t.supply.borrow.value.sent)
  {}

  lemma {:induction false} NotedOk(c: Config, rot: Rotator, k: Park, reported: bool)
    ensures ParkTargetNoted(c, rot, k, reported) == k.(parkSeen := ParkTargetNoted(c, rot, k, reported).parkSeen)
  {}

  lemma {:induction false} BorrowSteppedOk(c: Config, w: World, s: State, now: int)
    requires Ok(s)
    ensures var t := BorrowStepped(c, w, s, now);
      Ok(t) && t.park == s.park && t.pol == s.pol && t.sib == s.sib && t.watch == s.watch
  {}

  /** What a whole step or event guarantees about the lock. */
  predicate Advanced(c: Config, s: State, t: State, now: int) {
    && Ok(t) && Moved(s, t)
    && (t.park.lock.Some? && t.park.lock.value.retract ==>
          || (s.park.lock.Some? && s.park.lock.value.retract)
          || SwitchedOff(t)
          || (s.park.phase == Grounding && now - s.park.since >= c.timeouts.ground && RadioQuiet(c, t, now)))
  }

  lemma {:induction false} SteppedOk(c: Config, w: World, s0: State, s: State, active: seq<Id>, wind: Option<Wind>, now: int)
    requires c.Valid() && Ok(s) && Moved(s0, s) && NotRetracted(s0, s, now)
    ensures Advanced(c, s0, Stepped(c, w, s, active, wind, now), now)
  {
    hide AutoEntered, LateBorrowed, LockStepped, BorrowStepped, PresenceTracked, TxNoted, RadioQuiet, SwitchedOff, LockOk, BorrowOk;
    var a := PresenceTracked(TxNoted(s, now), now);
    TrackedOk(s, now);
    AutoEnteredOk(c, w, a, active, now);
    var b := AutoEntered(c, w, a, active, now);
    LateBorrowedOk(c, w, b, now);
    var d := LateBorrowed(c, w, b, now);
    if d.park.lock.Some? { LockSteppedOk(c, w, d, wind, now); }
    var e := if d.park.lock.Some? then LockStepped(c, w, d, wind, now) else d;
    BorrowSteppedOk(c, w, e, now);
    SameEyes(c, d, Stepped(c, w, s, active, wind, now), now);
  }

  lemma {:induction false} TrackedOk(s: State, now: int)
    requires Ok(s)
    ensures var a := PresenceTracked(TxNoted(s, now), now);
      Ok(a) && a == s.(watch := a.watch)
  {}

  lemma {:induction false} SameEyes(c: Config, s: State, t: State, now: int)
    ensures t.sib == s.sib && t.watch == s.watch ==> SwitchedOff(t) == SwitchedOff(s) && RadioQuiet(c, t, now) == RadioQuiet(c, s, now)
  {}

  lemma {:induction false} PersistedOk(w: World, s: State)
    ensures Persisted(w, s) == s.(journal := Persisted(w, s).journal)
  {}

  // ------------------------------------------------------------- events

  lemma {:induction false} HeardOk(c: Config, s: State, m: Message, now: int)
    requires Ok(s)
    ensures var t := Heard(c, s, m, now);
      && Ok(t) && Moved(s, t) && NotRetracted(s, t, now)
      && t.pol == s.pol && t.supply == s.supply && t.journal == s.journal
      && t.park == s.park.(parkSeen := t.park.parkSeen)
  {
    hide ParkTargetNoted;
    match m
    case Status(slot, online) => NotedOk(c, StatusHeard(s.sib, slot, online).rot, s.park, false);
    case RotState(az, target, moving, device) =>
      NotedOk(c, Rotator(s.sib.rot.status, device.GetOr(true), if az.Some? then az else s.sib.rot.az, moving, target), s.park, true);
    case _ =>
  }

  lemma {:induction false} ModeSetPoliced(p: Pol, m: Mode, now: int, active: seq<Id>)
    ensures Policed(p, ModeSet(p, m, now, active)) && ModeSet(p, m, now, active).s.mode == m
  {}

  lemma {:induction false} PolledPoliced(c: PolicyConfig, p: Pol, now: int, active: Option<seq<Id>>)
    ensures Policed(p, Polled(c, p, now, active))
  {}

  lemma {:induction false} AppliedOk(c: Config, w: World, s: State, cmd: Command, active: seq<Id>, now: int)
    requires Ok(s)
    ensures var t := Applied(c, w, s, cmd, active, now); Ok(t) && Moved(s, t) && NotRetracted(s, t, now)
  {
    hide ModeChanged, ParkRestarted, ModeSet;
    match cmd.action
    case SetAntMode(mode) =>
      if mode.Some? {
        ModeSetPoliced(s.pol, mode.value, now, active);
        ModeMoved(c, w, s, ModeSet(s.pol, mode.value, now, active), now);
      }
    case ReparkAction => if s.pol.s.mode != Normal { ParkRestartedOk(c, w, s.(pol := Reparked(s.pol)), now); }
    case _ =>
  }

  lemma {:induction false} ChainNotRetracted(s: State, t: State, u: State, now: int)
    requires NotRetracted(s, t, now) && NotRetracted(t, u, now)
    ensures NotRetracted(s, u, now)
  {}

  lemma {:induction false} AppliedAllOk(c: Config, w: World, s: State, cmds: seq<Command>, active: seq<Id>, now: int)
    requires Ok(s)
    ensures var t := AppliedAll(c, w, s, cmds, active, now); Ok(t) && Moved(s, t) && NotRetracted(s, t, now)
    decreases |cmds|
  {
    hide Applied, Ok, Moved, NotRetracted;
    if cmds == [] {
      StaysOk(s, now);
    } else {
      var mid := AppliedAll(c, w, s, cmds[..|cmds| - 1], active, now);
      AppliedAllOk(c, w, s, cmds[..|cmds| - 1], active, now);
      AppliedOk(c, w, mid, cmds[|cmds| - 1], active, now);
      var t := Applied(c, w, mid, cmds[|cmds| - 1], active, now);
      MovedOn(s, mid, t);
      ChainNotRetracted(s, mid, t, now);
    }
  }

  lemma {:induction false} StaysOk(s: State, now: int)
    ensures Moved(s, s) && NotRetracted(s, s, now)
  {}

  lemma {:induction false} NinaPolledOk(c: Config, w: World, s: State, found: Option<seq<Warning>>, now: int)
    requires Ok(s)
    ensures var t := NinaPolled(c, w, s, found, now); Ok(t) && Moved(s, t) && NotRetracted(s, t, now)
  {}

  lemma {:induction false} SteppedAndSavedOk(c: Config, w: World, s0: State, e: Engine, now: int)
    requires c.Valid() && Ok(e.s) && Moved(s0, e.s) && NotRetracted(s0, e.s, now)
    ensures Advanced(c, s0, SteppedAndSaved(c, w, e, now).s, now)
  {
    hide Stepped, Persisted, Moved, NotRetracted, Advanced;
    var t := Stepped(c, w, e.s, ActiveIds(e.warnings, now), e.wind, now);
    SteppedOk(c, w, s0, e.s, ActiveIds(e.warnings, now), e.wind, now);
    PersistedOk(w, t);
    SavedAdvanced(c, s0, t, Persisted(w, t), now);
  }

  lemma {:induction false} SavedAdvanced(c: Config, s: State, t: State, u: State, now: int)
    requires Advanced(c, s, t, now) && u == t.(journal := u.journal)
    ensures Advanced(c, s, u, now)
  {}

  lemma {:induction false} ReadyOk(c: Config, w: World, e: Engine, now: int)
    requires c.Valid() && Ok(e.s)
    ensures Advanced(c, e.s, BecameReady(c, w, e, now).s, now)
  {
    hide AppliedAll, SteppedAndSaved;
    var s := e.s.(park := e.s.park.(since := now),
                  supply := if e.s.supply.borrow.Some? then e.s.supply.(clock := now) else e.s.supply);
    AppliedAllOk(c, w, s, e.boot.pending, ActiveIds(e.warnings, now), now);
    var t := AppliedAll(c, w, s, e.boot.pending, ActiveIds(e.warnings, now), now);
    MovedOn(e.s, s, t);
    SteppedAndSavedOk(c, w, e.s, e.(s := t, boot := e.boot.(ready := true, adopt := false, pending := [])), now);
  }

  lemma {:induction false} QuietAdvanced(c: Config, s: State, t: State, now: int)
    requires Ok(t) && Moved(s, t) && NotRetracted(s, t, now)
    ensures Advanced(c, s, t, now)
  {}

  /** Every event but an adoption advances the lock as it should. */
  lemma {:induction false} StepOk(c: Config, w: World, e: Engine, ev: Event, now: int)
    requires c.Valid() && Ok(e.s) && !ev.OwnState?
    ensures Advanced(c, e.s, Step(c, w, e, ev, now).s, now)
  {
    hide SteppedAndSaved, BecameReady, Heard, Applied, NinaPolled, Advanced, Ok, Moved, NotRetracted;
    StaysOk(e.s, now);
    QuietAdvanced(c, e.s, e.s, now);
    match ev
    case Bus(m) =>
      HeardOk(c, e.s, m, now);
      QuietAdvanced(c, e.s, Heard(c, e.s, m, now), now);
      SteppedAndSavedOk(c, w, e.s, e.(s := Heard(c, e.s, m, now)), now);
    case NinaResult(found) =>
      NinaPolledOk(c, w, e.s, found, now);
      var t := if found.Some? then e.(warnings := found.value) else e;
      SteppedAndSavedOk(c, w, e.s, t.(s := NinaPolled(c, w, e.s, found, now)), now);
    case WindResult(dir) =>
      SteppedAndSavedOk(c, w, e.s, if dir.Some? then e.(wind := Some(Wind(dir.value, now))) else e, now);
    case Tick =>
      SteppedAndSavedOk(c, w, e.s, e, now);
      ReadyOk(c, w, e, now);
    case Cmd(cmd) =>
      AppliedOk(c, w, e.s, cmd, ActiveIds(e.warnings, now), now);
      SteppedAndSavedOk(c, w, e.s, e.(s := Applied(c, w, e.s, cmd, ActiveIds(e.warnings, now), now)), now);
    case SetConnected(on) =>
  }

  // ------------------------------------------------------------- starting and adopting

  /** A state file written by the engine, and a state message published by it. */
  predicate FileOk(f: Snapshot) {
    LockOk(f.standing.mode, f.lock, f.phase, f.standing.seq_) && BorrowOk(f.standing.mode, f.borrow)
  }

  predicate MessageOk(d: Published) {
    && d.phase.Some? && LockOk(d.mode, d.lock, d.phase.value, d.seq_)
  }

  lemma {:induction false} StartedOk(loaded: Option<Snapshot>, log: seq<Effect>, now: int)
    requires loaded.Some? ==> FileOk(loaded.value)
    ensures Ok(Started(loaded, log, now).s)
  {}

  lemma {:induction false} OwnStateOk(e: Engine, raw: Option<Published>, now: int)
    requires Ok(e.s) && (raw.Some? ==> MessageOk(raw.value))
    ensures var t := OwnStateHeard(e, raw, now);
      Ok(t.s) && t.s.pol.s.seq_ >= e.s.pol.s.seq_ && t.s.journal == e.s.journal && (e.boot.ready ==> t == e)
  {}

}
