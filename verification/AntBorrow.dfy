/** The antenna-power borrow is crash-safe: from the moment power is switched on until it is put back or powerseq owns
    it, the last snapshot that reached the disk holds the borrow, whatever saves and publishes fail. */
module AntBorrow {
  import opened Options
  import opened Policy
  import opened AntModel
  import opened AntEvents
  import opened AntLockRuns
  import opened AntWatch

  // ------------------------------------------------------------- reading the log

  /** Power was switched on for a borrow and neither put back nor taken over since. */
  function Outstanding(log: seq<Effect>): bool {
    if log == [] then false
    else match log[|log| - 1]
      case OnTried(_, owned) => if owned then Outstanding(log[..|log| - 1]) else true
      case OffSent => false
      case TookOver => false
      case _ => Outstanding(log[..|log| - 1])
  }

  function OnDisk(log: seq<Effect>): Option<Snapshot> {
    if log == [] then None
    else if log[|log| - 1].Saved? then Some(log[|log| - 1].snap)
    else OnDisk(log[..|log| - 1])
  }

  predicate Held(b: Option<Borrow>) { b.Some? && !b.value.takenOver }

  predicate DiskHolds(log: seq<Effect>) { OnDisk(log).Some? && Held(OnDisk(log).value.borrow) }

  /** At every point of the log, that is wherever the process may have died. */
  ghost predicate CrashSafe(log: seq<Effect>) {
    forall n: nat :: n <= |log| && Outstanding(log[..n]) ==> DiskHolds(log[..n])
  }

  ghost predicate Safe(s: State) {
    && CrashSafe(s.journal.log)
    && (Outstanding(s.journal.log) ==> Held(s.supply.borrow))
    && (Held(s.supply.borrow) ==> DiskHolds(s.journal.log))
  }

  lemma {:induction false} OneMore(log: seq<Effect>, e: Effect)
    requires CrashSafe(log) && (Outstanding(log + [e]) ==> DiskHolds(log + [e]))
    ensures CrashSafe(log + [e])
  {
    var more := log + [e];
    forall n: nat | n <= |more| && Outstanding(more[..n]) ensures DiskHolds(more[..n]) {
      if n <= |log| { assert more[..n] == log[..n]; } else { assert more[..n] == more; }
    }
  }

  lemma {:induction false} LogReads(log: seq<Effect>, e: Effect)
    ensures Outstanding(log + [e]) == match e
      case OnTried(_, owned) => !owned || Outstanding(log)
      case OffSent => false
      case TookOver => false
      case _ => Outstanding(log)
    ensures DiskHolds(log + [e]) == if e.Saved? then Held(e.snap.borrow) else DiskHolds(log)
  {}

  // ------------------------------------------------------------- one operation at a time

  /** The new log is longer, and all of it is safe. */
  lemma {:induction false} LoggedSafe(s: State, e: Effect, b: Option<Borrow>)
    requires Safe(s)
    requires e.Saved? ==> e.snap.borrow == b
    requires match e
      case Saved(_) => Held(s.supply.borrow) ==> Held(b)
      case SaveLost => b == s.supply.borrow
      case OnTried(_, owned) => Held(s.supply.borrow) == Held(b) == !owned
      case OffSent => b.None?
      case OffLost => b == s.supply.borrow
      case TookOver => !Held(b)
    ensures Safe(WithBorrow(Logged(s, e), b))
  {
    hide CrashSafe, Outstanding, DiskHolds;
    LogReads(s.journal.log, e);
    OneMore(s.journal.log, e);
  }

  /** Changing anything but the log, and the borrow only so that it is held still or no longer. */
  lemma {:induction false} ReshapedSafe(s: State, t: State)
    requires Safe(s) && t.journal.log == s.journal.log && Held(t.supply.borrow) == Held(s.supply.borrow)
    ensures Safe(t)
  {}

  lemma {:induction false} OnSentSafe(w: World, s: State)
    requires Safe(s) && s.supply.borrow.Some?
    ensures Safe(OnSent(w, s))
  {
    hide Safe;
    var t := OnSent(w, s);
    LoggedSafe(s, OnTried(w(|s.journal.log|), s.supply.borrow.value.takenOver), t.supply.borrow);
  }

  lemma {:induction false} BorrowStartedSafe(c: Config, w: World, s: State, now: int)
    requires Safe(s)
    ensures Safe(BorrowStarted(c, w, s, now))
  {
    hide Safe, OnSent, Phased;
    if MayBorrow(c, s) {
      var t := Borrowing(s, now);
      if w(|s.journal.log|) {
        LoggedSafe(s, Saved(SnapshotOf(t)), t.supply.borrow);
        var saved := Logged(t, Saved(SnapshotOf(t)));
        var u := saved.(supply := saved.supply.(clock := now), journal := saved.journal.(lastPersisted := None));
        ReshapedSafe(WithBorrow(Logged(s, Saved(SnapshotOf(t))), t.supply.borrow), u);
        OnSentSafe(w, u);
      } else {
        LoggedSafe(s, SaveLost, None);
        ReshapedSafe(WithBorrow(Logged(s, SaveLost), None), BorrowStarted(c, w, s, now));
      }
    }
  }

  lemma {:induction false} BorrowAttachedSafe(c: Config, w: World, s: State, now: int)
    requires Safe(s)
    ensures Safe(BorrowAttached(c, w, s, now))
  {
    hide Safe, BorrowStarted;
    if s.supply.borrow.None? || s.supply.borrow.value.takenOver {
      var t := s.(supply := s.supply.(borrow := None));
      ReshapedSafe(s, t);
      BorrowStartedSafe(c, w, t, now);
    } else {
      ReshapedSafe(s, BorrowAttached(c, w, s, now));
    }
  }

  lemma {:induction false} ParkRestartedSafe(c: Config, w: World, s: State, now: int)
    requires Safe(s)
    ensures Safe(ParkRestarted(c, w, s, now))
  {
    hide Safe, BorrowAttached;
    if s.park.lock.Some? {
      var l := s.park.lock.value.(seq_ := s.pol.s.seq_, parkAz := None);
      var k := Park(Some(l), if l.retract then Retracting else Grounding, now, false, s.park.nudgeBase, s.park.parkSeen);
      ReshapedSafe(s, NudgeBased(s.(park := k)));
      BorrowAttachedSafe(c, w, NudgeBased(s.(park := k)), now);
    }
  }

  lemma {:induction false} ModeChangedSafe(c: Config, w: World, s: State, from: Mode, now: int)
    requires Safe(s)
    ensures Safe(ModeChanged(c, w, s, from, now))
  {
    hide Safe, BorrowAttached, ParkRestarted, Phased;
    var to := s.pol.s.mode;
    var cleared := s.(park := s.park.(fault := false));
    ReshapedSafe(s, cleared);
    if to == Normal {
      ReshapedSafe(s, ModeChanged(c, w, s, from, now));
    } else if from == Normal {
      var l := Lock(s.pol.s.seq_, true, false, None, to == Maintenance);
      var t := NudgeBased(cleared.(park := Phased(cleared.park.(lock := Some(l)), Grounding, now)));
      ReshapedSafe(s, t);
      BorrowAttachedSafe(c, w, t, now);
    } else if s.park.lock.Some? {
      var t := cleared.(park := cleared.park.(lock := Some(s.park.lock.value.(nudge := to == Maintenance))));
      ReshapedSafe(s, t);
      ParkRestartedSafe(c, w, t, now);
    }
  }

  lemma {:induction false} LockSteppedSafe(c: Config, w: World, s: State, wind: Option<Wind>, now: int)
    requires Safe(s) && s.park.lock.Some?
    ensures Safe(LockStepped(c, w, s, wind, now))
  {
    hide Safe, OnSent, ParkComputed, AtPark, Nudged, ParkTargetNoted, RadioQuiet, RetractConfirmed, Phased;
    var t := LockStepped(c, w, s, wind, now);
    if s.park.phase == AwaitingPower && s.supply.borrow.Some? && !s.supply.borrow.value.sent {
      OnSentSafe(w, s);
      ReshapedSafe(OnSent(w, s), t);
    } else {
      if s.park.phase == Retracting { ParkComputedKeeps(c, s, wind, now); }
      ReshapedSafe(s, t);
    }
  }

  lemma {:induction false} ParkComputedKeeps(c: Config, s: State, wind: Option<Wind>, now: int)
    requires s.park.lock.Some?
    ensures ParkComputed(c, s, wind, now).journal == s.journal && ParkComputed(c, s, wind, now).supply == s.supply
  {}

  lemma {:induction false} BorrowSteppedSafe(c: Config, w: World, s: State, now: int)
    requires Safe(s)
    ensures Safe(BorrowStepped(c, w, s, now))
  {
    hide Safe, RestoreDue, StillSlewing, TakesOver;
    if s.supply.borrow.Some? {
      var b := Some(s.supply.borrow.value.(takenOver := true));
      LoggedSafe(s, TookOver, b);
      TookOverCommutes(s, b);
      var t := if TakesOver(s) then Logged(WithBorrow(s, b), TookOver) else s;
      LoggedSafe(t, OffSent, None);
      if t.supply.borrow.value.takenOver { ReshapedSafe(t, WithBorrow(t, None)); }
      LoggedSafe(t, OffLost, t.supply.borrow);
      LostKeeps(t);
    }
  }

  lemma {:induction false} TookOverCommutes(s: State, b: Option<Borrow>)
    ensures Logged(WithBorrow(s, b), TookOver) == WithBorrow(Logged(s, TookOver), b)
  {}

  lemma {:induction false} LostKeeps(s: State)
    ensures WithBorrow(Logged(s, OffLost), s.supply.borrow) == Logged(s, OffLost)
  {}

  lemma {:induction false} PersistedSafe(w: World, s: State)
    requires Safe(s)
    ensures Safe(Persisted(w, s))
  {
    hide Safe;
    var snap := SnapshotOf(s);
    if s.journal.lastPersisted != Some(snap) {
      if w(|s.journal.log|) {
        LoggedSafe(s, Saved(snap), s.supply.borrow);
        ReshapedSafe(WithBorrow(Logged(s, Saved(snap)), s.supply.borrow), Persisted(w, s));
      } else {
        LoggedSafe(s, SaveLost, s.supply.borrow);
        ReshapedSafe(WithBorrow(Logged(s, SaveLost), s.supply.borrow), Persisted(w, s));
      }
    }
  }

  // ------------------------------------------------------------- steps and events

  lemma {:induction false} SteppedSafe(c: Config, w: World, e: Engine, now: int)
    requires Safe(e.s)
    ensures Safe(SteppedAndSaved(c, w, e, now).s)
  {
    hide Safe, PresenceTracked, TxNoted, ModeChanged, BorrowStarted, LockStepped, BorrowStepped, Persisted, LateBorrowOpen, Evaluated, PresenceNow;
    var active := ActiveIds(e.warnings, now);
    var a := PresenceTracked(TxNoted(e.s, now), now);
    assert a == e.s.(watch := a.watch) by { OnlyWatch(e.s, now); }
    ReshapedSafe(e.s, a);
    var p := Evaluated(c.policy, a.pol, now, active, PresenceNow(a, now));
    ReshapedSafe(a, a.(pol := p));
    ModeChangedSafe(c, w, a.(pol := p), a.pol.s.mode, now);
    var b := AutoEntered(c, w, a, active, now);
    BorrowStartedSafe(c, w, b, now);
    var d := LateBorrowed(c, w, b, now);
    if d.park.lock.Some? { LockSteppedSafe(c, w, d, e.wind, now); }
    var f := if d.park.lock.Some? then LockStepped(c, w, d, e.wind, now) else d;
    BorrowSteppedSafe(c, w, f, now);
    PersistedSafe(w, BorrowStepped(c, w, f, now));
  }

  lemma {:induction false} OnlyWatch(s: State, now: int)
    ensures var a := PresenceTracked(TxNoted(s, now), now); a == s.(watch := a.watch)
  {}

  lemma {:induction false} AppliedSafe(c: Config, w: World, s: State, cmd: Command, active: seq<Id>, now: int)
    requires Safe(s)
    ensures Safe(Applied(c, w, s, cmd, active, now))
  {
    hide Safe, ModeChanged, ParkRestarted, ModeSet, Reparked, Dismissed;
    match cmd.action
    case SetAntMode(mode) =>
      if mode.Some? {
        var t := s.(pol := ModeSet(s.pol, mode.value, now, active));
        ReshapedSafe(s, t);
        ModeChangedSafe(c, w, t, s.pol.s.mode, now);
      }
    case ReparkAction =>
      ReshapedSafe(s, s.(pol := Reparked(s.pol)));
      ParkRestartedSafe(c, w, s.(pol := Reparked(s.pol)), now);
    case DismissAction => ReshapedSafe(s, s.(pol := Dismissed(s.pol, active)));
    case OtherAction =>
  }

  lemma {:induction false} AppliedAllSafe(c: Config, w: World, s: State, cmds: seq<Command>, active: seq<Id>, now: int)
    requires Safe(s)
    ensures Safe(AppliedAll(c, w, s, cmds, active, now))
    decreases |cmds|
  {
    hide Safe, Applied;
    if cmds != [] {
      AppliedAllSafe(c, w, s, cmds[..|cmds| - 1], active, now);
      AppliedSafe(c, w, AppliedAll(c, w, s, cmds[..|cmds| - 1], active, now), cmds[|cmds| - 1], active, now);
    }
  }

  lemma {:induction false} PreparedSafe(c: Config, w: World, e: Engine, ev: Event, now: int)
    requires Safe(e.s)
    ensures Safe(Prepared(c, w, e, ev, now).s)
  {
    hide Safe, Heard, ModeChanged, AppliedAll, Applied, Polled;
    match ev
    case Bus(m) =>
      HeardKeeps(c, e.s, m, now);
      ReshapedSafe(e.s, Heard(c, e.s, m, now));
    case NinaResult(found) =>
      var p := Polled(c.policy, e.s.pol, now, if found.Some? then Some(ActiveIds(found.value, now)) else None);
      ReshapedSafe(e.s, e.s.(pol := p));
      ModeChangedSafe(c, w, e.s.(pol := p), e.s.pol.s.mode, now);
    case Tick =>
      var s := e.s.(park := e.s.park.(since := now),
                    supply := if e.s.supply.borrow.Some? then e.s.supply.(clock := now) else e.s.supply);
      ReshapedSafe(e.s, s);
      AppliedAllSafe(c, w, s, e.boot.pending, ActiveIds(e.warnings, now), now);
    case Cmd(cmd) => AppliedSafe(c, w, e.s, cmd, ActiveIds(e.warnings, now), now);
    case _ =>
  }

  lemma {:induction false} StepSafe(c: Config, w: World, e: Engine, ev: Event, now: int)
    requires Safe(e.s) && !Adopts(e, ev)
    ensures Safe(Step(c, w, e, ev, now).s)
  {
    hide Safe, SteppedAndSaved, Prepared, Step;
    StepFactors(c, w, e, ev, now);
    if Steps(e, ev, now) {
      PreparedSafe(c, w, e, ev, now);
      SteppedSafe(c, w, Prepared(c, w, e, ev, now), now);
    } else {
      if ev.OwnState? { UnadoptedKeeps(c, w, e, ev, now); }
      ReshapedSafe(e.s, Step(c, w, e, ev, now).s);
    }
  }

  // ------------------------------------------------------------- over runs

  /** What disk and power may carry at a start from this file: the file, and power on if it holds a borrow. */
  function LogOf(loaded: Option<Snapshot>): seq<Effect> {
    if loaded.None? then []
    else [Saved(loaded.value)] + if Held(loaded.value.borrow) then [OnTried(true, false)] else []
  }

  lemma {:induction false} StartedSafe(loaded: Option<Snapshot>, now: int)
    ensures Safe(Started(loaded, LogOf(loaded), now).s)
  {
    assert Outstanding([]) == false;
    if loaded.Some? {
      LogReads([], Saved(loaded.value));
      OneMore([], Saved(loaded.value));
      assert [] + [Saved(loaded.value)] == [Saved(loaded.value)];
      LogReads([Saved(loaded.value)], OnTried(true, false));
      if Held(loaded.value.borrow) { OneMore([Saved(loaded.value)], OnTried(true, false)); }
    }
  }

  // ------------------------------------------------------------- adoption, exactly

  /** The retained message carries a borrow that powerseq does not own. */
  predicate MessageHolds(ev: Event) {
    ev.OwnState? && ev.doc.Some? && ev.doc.value.borrow.Some? && !ev.doc.value.borrow.value.takenOver
  }

  /** The message and what is already out agree: a borrow it brings is on disk, and power that is out it accounts for. */
  predicate AdoptsSafely(e: Engine, ev: Event) {
    && (MessageHolds(ev) ==> DiskHolds(e.s.journal.log))
    && (Outstanding(e.s.journal.log) ==> MessageHolds(ev))
  }

  /** An adoption leaves the engine safe, in the sense of Safe, exactly when it does so: not when it brings a borrow the
      disk does not hold, and not when it forgets one whose power is on. Which of those cost a crash point at the first
      step: AntFirstStep. */
  lemma {:induction false} AdoptionSafeExactly(c: Config, w: World, e: Engine, ev: Event, now: int)
    requires Safe(e.s) && Adopts(e, ev)
    ensures Safe(Step(c, w, e, ev, now).s) <==> AdoptsSafely(e, ev)
  {
    hide CrashSafe, Outstanding, DiskHolds;
    AdoptedBorrow(c, w, e, ev, now);
  }

  lemma {:induction false} AdoptedBorrow(c: Config, w: World, e: Engine, ev: Event, now: int)
    requires Adopts(e, ev)
    ensures var t := Step(c, w, e, ev, now).s; t.journal == e.s.journal && Held(t.supply.borrow) == MessageHolds(ev)
  {}

  /** The event keeps the engine safe: it adopts nothing, or safely. */
  predicate KeepsSafe(e: Engine, ev: Event) { Adopts(e, ev) ==> AdoptsSafely(e, ev) }

  /** From nothing or from any state file, in every run whose adoptions are safe ones: wherever the process dies,
      between any two saves or power commands, if power was switched on and neither put back nor taken over, the disk
      holds the borrow. */
  lemma {:induction false} BorrowIsCrashSafe(c: Config, w: World, loaded: Option<Snapshot>, t0: int, run: seq<Timed>, i: nat)
    requires i <= |run|
    requires var start := Started(loaded, LogOf(loaded), t0);
      forall k :: 0 <= k < i ==> KeepsSafe(After(c, w, start, run, k), run[k].event)
    ensures var start := Started(loaded, LogOf(loaded), t0);
      Safe(After(c, w, start, run, i).s) && CrashSafe(After(c, w, start, run, i).s.journal.log)
  {
    hide Step, Started, LogOf, Adopts, AdoptsSafely;
    var start := Started(loaded, LogOf(loaded), t0);
    if i == 0 {
      StartedSafe(loaded, t0);
    } else {
      BorrowIsCrashSafe(c, w, loaded, t0, run, i - 1);
      EventSafe(c, w, After(c, w, start, run, i - 1), run[i - 1].event, run[i - 1].at);
    }
  }

  lemma {:induction false} EventSafe(c: Config, w: World, e: Engine, ev: Event, now: int)
    requires Safe(e.s)
    ensures Safe(Step(c, w, e, ev, now).s) <==> KeepsSafe(e, ev)
  {
    hide Step, Safe, Adopts, AdoptsSafely;
    if Adopts(e, ev) { AdoptionSafeExactly(c, w, e, ev, now); } else { StepSafe(c, w, e, ev, now); }
  }

  ghost predicate AlwaysSafe(c: Config, w: World, start: Engine, run: seq<Timed>) {
    forall i: nat :: i <= |run| ==> Safe(After(c, w, start, run, i).s)
  }

  ghost predicate AdoptionsSafe(c: Config, w: World, start: Engine, run: seq<Timed>) {
    forall k: nat :: k < |run| ==> KeepsSafe(After(c, w, start, run, k), run[k].event)
  }

  /** And exactly in those: a run is safe throughout, every borrow the engine holds being on disk, every power-on being
      a borrow it holds, and every crash point safe, if and only if each of its adoptions is a safe one. */
  lemma {:induction false} SafeThroughoutExactly(c: Config, w: World, loaded: Option<Snapshot>, t0: int, run: seq<Timed>)
    ensures var start := Started(loaded, LogOf(loaded), t0);
      AlwaysSafe(c, w, start, run) <==> AdoptionsSafe(c, w, start, run)
  {
    hide Step, Started, LogOf, KeepsSafe, Safe, After;
    var start := Started(loaded, LogOf(loaded), t0);
    if AdoptionsSafe(c, w, start, run) {
      forall i: nat | i <= |run| ensures Safe(After(c, w, start, run, i).s) { BorrowIsCrashSafe(c, w, loaded, t0, run, i); }
    }
    if AlwaysSafe(c, w, start, run) {
      forall k: nat | k < |run| ensures KeepsSafe(After(c, w, start, run, k), run[k].event) {
        SafeStepKeeps(c, w, start, run, k);
      }
    }
  }

  lemma {:induction false} SafeStepKeeps(c: Config, w: World, start: Engine, run: seq<Timed>, k: nat)
    requires k < |run| && Safe(After(c, w, start, run, k).s) && Safe(After(c, w, start, run, k + 1).s)
    ensures KeepsSafe(After(c, w, start, run, k), run[k].event)
  {
    hide Step, KeepsSafe, Safe, After;
    EventSafe(c, w, After(c, w, start, run, k), run[k].event, run[k].at);
    NextIs(c, w, start, run, k);
  }

  lemma {:induction false} NextIs(c: Config, w: World, start: Engine, run: seq<Timed>, k: nat)
    requires k < |run|
    ensures After(c, w, start, run, k + 1) == Step(c, w, After(c, w, start, run, k), run[k].event, run[k].at)
  {
    hide Step;
  }
}
