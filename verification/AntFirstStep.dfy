/** Which of the unsafe adoptions cost a crash point: what the step that ends the startup hold makes of a borrow the disk
    does not hold, and of power whose borrow has been forgotten. */
module AntFirstStep {
  import opened Options
  import opened Policy
  import opened AntModel
  import opened AntEvents
  import opened AntLock
  import opened AntWatch
  import opened AntBorrow

  /** The tick that ends the startup hold, with no command queued. */
  predicate FirstTick(e: Engine, now: int) { !e.boot.ready && HoldOver(e.boot, now) && e.boot.pending == [] }

  /** The state that tick steps from. */
  function Resumed(e: Engine, now: int): State {
    e.s.(park := e.s.park.(since := now), supply := if e.s.supply.borrow.Some? then e.s.supply.(clock := now) else e.s.supply)
  }

  lemma {:induction false} FirstTickIs(c: Config, w: World, e: Engine, now: int)
    requires FirstTick(e, now)
    ensures Prepared(c, w, e, Tick, now).s == Resumed(e, now)
    ensures Step(c, w, e, Tick, now) == SteppedAndSaved(c, w, Prepared(c, w, e, Tick, now), now)
  {
    hide SteppedAndSaved;
    StepFactors(c, w, e, Tick, now);
    assert AppliedAll(c, w, Resumed(e, now), [], ActiveIds(e.warnings, now), now) == Resumed(e, now);
  }

  // ------------------------------------------------------------- no power out yet

  /** Nothing on the log could be lost by a crash. */
  ghost predicate Calm(log: seq<Effect>) { CrashSafe(log) && !Outstanding(log) }

  lemma {:induction false} CalmMore(log: seq<Effect>, e: Effect)
    requires Calm(log) && (e.OnTried? ==> e.owned)
    ensures Calm(log + [e])
  {
    hide CrashSafe;
    LogReads(log, e);
    OneMore(log, e);
  }

  lemma {:induction false} RestoringStaysCalm(c: Config, w: World, s: State, now: int)
    requires Calm(s.journal.log)
    ensures Calm(Persisted(w, BorrowStepped(c, w, s, now)).journal.log)
  {
    hide Calm, RestoreDue, StillSlewing, TakesOver;
    CalmMore(s.journal.log, TookOver);
    var t := BorrowStepped(c, w, s, now);
    var mid := if s.supply.borrow.Some? && TakesOver(s) then s.journal.log + [TookOver] else s.journal.log;
    CalmMore(mid, OffSent);
    CalmMore(mid, OffLost);
    assert Calm(t.journal.log);
    CalmMore(t.journal.log, SaveLost);
    CalmMore(t.journal.log, Saved(SnapshotOf(t)));
  }

  lemma {:induction false} LogGrows(c: Config, w: World, s: State, now: int)
    ensures s.journal.log <= Persisted(w, BorrowStepped(c, w, s, now)).journal.log
  {
    hide RestoreDue, StillSlewing, TakesOver;
  }

  /** A step in a locked mode with the late borrow closed: only the lock sequence comes before restoring and saving. */
  lemma {:induction false} StepIsLockStep(c: Config, w: World, p: Engine, now: int) returns (a: State)
    requires p.s.pol.s.mode != Normal && p.s.park.lock.Some?
    ensures a == PresenceTracked(TxNoted(p.s, now), now) && a == p.s.(watch := a.watch)
    ensures LateBorrowed(c, w, a, now).park.lock.Some?
    ensures SteppedAndSaved(c, w, p, now).s
         == Persisted(w, BorrowStepped(c, w, LockStepped(c, w, LateBorrowed(c, w, a, now), p.wind, now), now))
  {
    hide PresenceTracked, TxNoted, LockStepped, BorrowStepped, Persisted;
    OnlyWatch(p.s, now);
    a := PresenceTracked(TxNoted(p.s, now), now);
    assert AutoEntered(c, w, a, ActiveIds(p.warnings, now), now) == a;
  }

  /** An adopted borrow that is not on disk, with no power out, costs a crash point at the first step exactly when its
      lock waits for the power: then it is switched on before the first save. */
  lemma {:induction false} UnsavedBorrowExactly(c: Config, w: World, e: Engine, now: int)
    requires FirstTick(e, now) && e.s.pol.s.mode != Normal && e.s.park.lock.Some?
    requires Held(e.s.supply.borrow) && (e.s.supply.borrow.value.sent <==> e.s.park.phase != AwaitingPower)
    requires Calm(e.s.journal.log) && !DiskHolds(e.s.journal.log)
    ensures CrashSafe(Step(c, w, e, Tick, now).s.journal.log) <==> e.s.park.phase != AwaitingPower
  {
    hide SteppedAndSaved, Step, Prepared, CrashSafe, Outstanding, DiskHolds, LockStepped, BorrowStepped, Persisted;
    FirstTickIs(c, w, e, now);
    var p := Prepared(c, w, e, Tick, now);
    var a := StepIsLockStep(c, w, p, now);
    var f := LockStepped(c, w, a, p.wind, now);
    assert LateBorrowed(c, w, a, now) == a;
    PowerOrNothing(c, w, a, p.wind, now);
    if e.s.park.phase == AwaitingPower {
      LogGrows(c, w, f, now);
      LogReads(a.journal.log, OnTried(w(|a.journal.log|), false));
      UnsafePrefix(Persisted(w, BorrowStepped(c, w, f, now)).journal.log, f.journal.log);
    } else {
      RestoringStaysCalm(c, w, f, now);
    }
  }

  lemma {:induction false} UnsafePrefix(log: seq<Effect>, part: seq<Effect>)
    requires part <= log && Outstanding(part) && !DiskHolds(part)
    ensures !CrashSafe(log)
  {
    assert log[..|part|] == part;
  }

  lemma {:induction false} PowerOrNothing(c: Config, w: World, s: State, wind: Option<Wind>, now: int)
    requires s.park.lock.Some? && Held(s.supply.borrow) && (s.supply.borrow.value.sent <==> s.park.phase != AwaitingPower)
    ensures LockStepped(c, w, s, wind, now).journal.log
         == if s.park.phase == AwaitingPower then s.journal.log + [OnTried(w(|s.journal.log|), false)] else s.journal.log
  {
    hide ParkComputed, AtPark, Nudged, ParkTargetNoted, RadioQuiet, RetractConfirmed;
    if s.park.phase == Retracting { ParkComputedKeeps(c, s, wind, now); }
  }

  // ------------------------------------------------------------- power out and forgotten

  /** Power is out, the disk holds its borrow, the engine does not. */
  ghost predicate Forgotten(s: State) {
    CrashSafe(s.journal.log) && Outstanding(s.journal.log) && DiskHolds(s.journal.log) && !Held(s.supply.borrow)
  }

  lemma {:induction false} ForgottenMore(s: State, e: Effect)
    requires Forgotten(s) && (e == SaveLost || e.OnTried?)
    ensures Forgotten(Logged(s, e))
  {
    hide CrashSafe, Outstanding, DiskHolds;
    LogReads(s.journal.log, e);
    OneMore(s.journal.log, e);
  }

  /** Whether the late borrow is taken, given up or not due. */
  lemma {:induction false} LateBorrowRemembers(c: Config, w: World, s: State, now: int)
    requires c.Valid() && s.park.lock.Some? && Forgotten(s)
    ensures var d := LateBorrowed(c, w, s, now);
      && (if LateBorrowOpen(s) && MayBorrow(c, s) && w(|s.journal.log|) then Safe(d) && Fresh(d, now) else Forgotten(d))
      && (s.journal.lastPersisted.None? ==> d.journal.lastPersisted.None?)
  {
    hide CrashSafe, Outstanding, DiskHolds, Phased;
    if LateBorrowOpen(s) && MayBorrow(c, s) {
      var t := Borrowing(s, now);
      var log := s.journal.log;
      if w(|log|) {
        LogReads(log, Saved(SnapshotOf(t)));
        OneMore(log, Saved(SnapshotOf(t)));
        var more := log + [Saved(SnapshotOf(t))];
        LogReads(more, OnTried(w(|more|), false));
        OneMore(more, OnTried(w(|more|), false));
        FreshlyBorrowed(c, w, s, now);
      } else {
        ForgottenMore(s, SaveLost);
      }
    }
  }

  /** A borrow taken at this very time, its power not on yet. */
  predicate Fresh(s: State, now: int) {
    && Held(s.supply.borrow) && !s.supply.borrow.value.restore && s.supply.borrow.value.startPhase == s.sib.seq_.phase
    && s.supply.clock == now && s.park.phase == AwaitingPower && !PowerOn(s.sib)
  }

  lemma {:induction false} FreshlyBorrowed(c: Config, w: World, s: State, now: int)
    requires MayBorrow(c, s) && w(|s.journal.log|) && s.park.lock.Some?
    ensures Fresh(BorrowStarted(c, w, s, now), now)
  {}

  lemma {:induction false} FreshStaysHeld(c: Config, w: World, s: State, wind: Option<Wind>, now: int)
    requires c.Valid() && s.park.lock.Some? && Fresh(s, now)
    ensures Held(BorrowStepped(c, w, LockStepped(c, w, s, wind, now), now).supply.borrow)
  {}

  lemma {:induction false} LockStepForgets(c: Config, w: World, s: State, wind: Option<Wind>, now: int)
    requires s.park.lock.Some? && Forgotten(s)
    ensures var f := LockStepped(c, w, s, wind, now); Forgotten(f) && f.journal.lastPersisted == s.journal.lastPersisted
  {
    hide CrashSafe, Outstanding, DiskHolds, ParkComputed, AtPark, Nudged, ParkTargetNoted, RadioQuiet, RetractConfirmed;
    if s.park.phase == Retracting { ParkComputedKeeps(c, s, wind, now); }
    if s.supply.borrow.Some? { ForgottenMore(s, OnTried(w(|s.journal.log|), true)); }
  }

  lemma {:induction false} RestoringForgets(c: Config, w: World, s: State, now: int)
    requires Forgotten(s)
    ensures var g := BorrowStepped(c, w, s, now); Forgotten(g) && g.journal.lastPersisted == s.journal.lastPersisted
  {
    hide CrashSafe, Outstanding, DiskHolds, StillSlewing;
  }

  /** The save that forgets for good, or is lost and leaves the old file be. */
  lemma {:induction false} SavingForgets(w: World, s: State)
    requires Forgotten(s) && s.journal.lastPersisted.None?
    ensures var h := Persisted(w, s);
      !Held(h.supply.borrow) && (CrashSafe(h.journal.log) <==> h.journal.lastPersisted.None?)
  {
    hide CrashSafe, Outstanding, DiskHolds;
    var snap := SnapshotOf(s);
    LogReads(s.journal.log, Saved(snap));
    ForgottenMore(s, SaveLost);
    if w(|s.journal.log|) { UnsafePrefix(s.journal.log + [Saved(snap)], s.journal.log + [Saved(snap)]); }
  }

  /** Power out whose borrow an adoption forgot costs a crash point at the first step exactly when that step's own save
      reaches the disk without a new borrow having been taken. */
  lemma {:induction false} ForgottenBorrowExactly(c: Config, w: World, e: Engine, now: int)
    requires c.Valid() && FirstTick(e, now) && e.s.pol.s.mode != Normal && e.s.park.lock.Some?
    requires Forgotten(e.s) && e.s.journal.lastPersisted.None?
    ensures var t := Step(c, w, e, Tick, now).s;
      CrashSafe(t.journal.log) <==> Held(t.supply.borrow) || t.journal.lastPersisted.None?
  {
    hide SteppedAndSaved, Step, Prepared, CrashSafe, Outstanding, DiskHolds, LockStepped, BorrowStepped, Persisted, LateBorrowed, Fresh, LateBorrowOpen, MayBorrow;
    FirstTickIs(c, w, e, now);
    var p := Prepared(c, w, e, Tick, now);
    var a := StepIsLockStep(c, w, p, now);
    LateBorrowRemembers(c, w, a, now);
    var d := LateBorrowed(c, w, a, now);
    var f := LockStepped(c, w, d, p.wind, now);
    var g := BorrowStepped(c, w, f, now);
    if LateBorrowOpen(a) && MayBorrow(c, a) && w(|a.journal.log|) {
      LockSteppedSafe(c, w, d, p.wind, now);
      BorrowSteppedSafe(c, w, f, now);
      PersistedSafe(w, g);
      FreshStaysHeld(c, w, d, p.wind, now);
      SavingKeepsBorrow(w, g);
    } else {
      LockStepForgets(c, w, d, p.wind, now);
      RestoringForgets(c, w, f, now);
      SavingForgets(w, g);
    }
  }

  lemma {:induction false} SavingKeepsBorrow(w: World, s: State)
    ensures Persisted(w, s).supply == s.supply
  {}
}
