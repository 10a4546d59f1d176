/** How a power borrow may end, what a restart makes of it, and two starts after which a crash loses one. */
module AntBorrowFate {
  import opened Options
  import opened Policy
  import opened AntModel
  import opened AntEvents
  import opened AntLockRuns
  import opened AntWatch
  import opened AntBorrow

  // ------------------------------------------------------------- how a borrow ends

  /** Between the logs the restore was published or powerseq was seen to own the power. */
  predicate GivenUp(before: seq<Effect>, after: seq<Effect>) {
    exists k :: |before| <= k < |after| && (after[k].OffSent? || after[k].TookOver?)
  }

  predicate SameBorrow(a: Option<Borrow>, b: Option<Borrow>) {
    a.Some? && b.Some? && a.value.since == b.value.since && a.value.startPhase == b.value.startPhase
  }

  /** The log only grows, and a borrow the engine holds it still holds, unless it was given up on the way. */
  predicate Follows(s: State, t: State) {
    && s.journal.log <= t.journal.log
    && (Held(s.supply.borrow) ==>
          (Held(t.supply.borrow) && SameBorrow(s.supply.borrow, t.supply.borrow)) || GivenUp(s.journal.log, t.journal.log))
  }

  lemma {:induction false} FollowsOn(s: State, t: State, u: State)
    requires Follows(s, t) && Follows(t, u)
    ensures Follows(s, u)
  {}

  lemma {:induction false} BorrowStartedFollows(c: Config, w: World, s: State, now: int)
    ensures Follows(s, BorrowStarted(c, w, s, now))
  {}

  lemma {:induction false} BorrowAttachedFollows(c: Config, w: World, s: State, now: int)
    ensures Follows(s, BorrowAttached(c, w, s, now))
  {}

  lemma {:induction false} ParkRestartedFollows(c: Config, w: World, s: State, now: int)
    ensures Follows(s, ParkRestarted(c, w, s, now))
  {}

  lemma {:induction false} Unchanged(s: State, t: State)
    requires t.journal.log == s.journal.log && Held(t.supply.borrow) == Held(s.supply.borrow)
    requires Held(s.supply.borrow) ==> SameBorrow(s.supply.borrow, t.supply.borrow)
    ensures Follows(s, t)
  {}

  lemma {:induction false} ModeChangedFollows(c: Config, w: World, s: State, from: Mode, now: int)
    ensures Follows(s, ModeChanged(c, w, s, from, now))
  {
    hide BorrowAttached, ParkRestarted, Phased, Follows;
    var to := s.pol.s.mode;
    var cleared := s.(park := s.park.(fault := false));
    Unchanged(s, cleared);
    if to == Normal {
      Unchanged(s, ModeChanged(c, w, s, from, now));
    } else if from == Normal {
      var l := Lock(s.pol.s.seq_, true, false, None, to == Maintenance);
      var t := NudgeBased(cleared.(park := Phased(cleared.park.(lock := Some(l)), Grounding, now)));
      Unchanged(s, t);
      BorrowAttachedFollows(c, w, t, now);
      FollowsOn(s, t, BorrowAttached(c, w, t, now));
    } else if s.park.lock.Some? {
      var t := cleared.(park := cleared.park.(lock := Some(s.park.lock.value.(nudge := to == Maintenance))));
      Unchanged(s, t);
      ParkRestartedFollows(c, w, t, now);
      FollowsOn(s, t, ParkRestarted(c, w, t, now));
    }
  }

  lemma {:induction false} LockSteppedFollows(c: Config, w: World, s: State, wind: Option<Wind>, now: int)
    requires s.park.lock.Some?
    ensures Follows(s, LockStepped(c, w, s, wind, now))
  {}

  lemma {:induction false} BorrowSteppedFollows(c: Config, w: World, s: State, now: int)
    ensures Follows(s, BorrowStepped(c, w, s, now))
  {
    hide RestoreDue, StillSlewing, TakesOver;
    var t := BorrowStepped(c, w, s, now);
    if s.supply.borrow.Some? && TakesOver(s) {
      assert t.journal.log[|s.journal.log|] == TookOver;
    } else if |t.journal.log| > |s.journal.log| {
      assert t.journal.log[|s.journal.log|] in {OffSent, OffLost};
    }
  }

  lemma {:induction false} SteppedFollows(c: Config, w: World, e: Engine, now: int)
    ensures Follows(e.s, SteppedAndSaved(c, w, e, now).s)
  {
    hide Follows, PresenceTracked, TxNoted, ModeChanged, BorrowStarted, LockStepped, BorrowStepped, Persisted, LateBorrowOpen, Evaluated, PresenceNow;
    var active := ActiveIds(e.warnings, now);
    var a := PresenceTracked(TxNoted(e.s, now), now);
    assert a == e.s.(watch := a.watch) by { OnlyWatch(e.s, now); }
    var p := Evaluated(c.policy, a.pol, now, active, PresenceNow(a, now));
    var b := AutoEntered(c, w, a, active, now);
    Unchanged(e.s, a.(pol := p));
    Unchanged(e.s, a);
    ModeChangedFollows(c, w, a.(pol := p), a.pol.s.mode, now);
    if p.s.mode != a.pol.s.mode { FollowsOn(e.s, a.(pol := p), b); }
    var d := LateBorrowed(c, w, b, now);
    Unchanged(b, b);
    BorrowStartedFollows(c, w, b, now);
    FollowsOn(e.s, b, d);
    var f := if d.park.lock.Some? then LockStepped(c, w, d, e.wind, now) else d;
    if d.park.lock.Some? { LockSteppedFollows(c, w, d, e.wind, now); } else { Unchanged(d, d); }
    FollowsOn(e.s, d, f);
    var g := BorrowStepped(c, w, f, now);
    BorrowSteppedFollows(c, w, f, now);
    FollowsOn(e.s, f, g);
    PersistedFollows(w, g);
    FollowsOn(e.s, g, Persisted(w, g));
  }

  lemma {:induction false} PersistedFollows(w: World, s: State)
    ensures Follows(s, Persisted(w, s))
  {}

  lemma {:induction false} AppliedFollows(c: Config, w: World, s: State, cmd: Command, active: seq<Id>, now: int)
    ensures Follows(s, Applied(c, w, s, cmd, active, now))
  {
    hide Follows, ModeChanged, ParkRestarted, ModeSet, Reparked, Dismissed;
    Unchanged(s, s);
    match cmd.action
    case SetAntMode(mode) =>
      if mode.Some? {
        var t := s.(pol := ModeSet(s.pol, mode.value, now, active));
        Unchanged(s, t);
        ModeChangedFollows(c, w, t, s.pol.s.mode, now);
        FollowsOn(s, t, ModeChanged(c, w, t, s.pol.s.mode, now));
      }
    case ReparkAction =>
      var t := s.(pol := Reparked(s.pol));
      Unchanged(s, t);
      ParkRestartedFollows(c, w, t, now);
      FollowsOn(s, t, ParkRestarted(c, w, t, now));
    case DismissAction => Unchanged(s, s.(pol := Dismissed(s.pol, active)));
    case OtherAction =>
  }

  lemma {:induction false} AppliedAllFollows(c: Config, w: World, s: State, cmds: seq<Command>, active: seq<Id>, now: int)
    ensures Follows(s, AppliedAll(c, w, s, cmds, active, now))
    decreases |cmds|
  {
    hide Follows, Applied;
    if cmds == [] {
      Unchanged(s, s);
    } else {
      var t := AppliedAll(c, w, s, cmds[..|cmds| - 1], active, now);
      AppliedAllFollows(c, w, s, cmds[..|cmds| - 1], active, now);
      AppliedFollows(c, w, t, cmds[|cmds| - 1], active, now);
      FollowsOn(s, t, Applied(c, w, t, cmds[|cmds| - 1], active, now));
    }
  }

  lemma {:induction false} PreparedFollows(c: Config, w: World, e: Engine, ev: Event, now: int)
    ensures Follows(e.s, Prepared(c, w, e, ev, now).s)
  {
    hide Follows, Heard, ModeChanged, AppliedAll, Applied, Polled;
    Unchanged(e.s, e.s);
    match ev
    case Bus(m) =>
      HeardKeeps(c, e.s, m, now);
      Unchanged(e.s, Heard(c, e.s, m, now));
    case NinaResult(found) =>
      var p := Polled(c.policy, e.s.pol, now, if found.Some? then Some(ActiveIds(found.value, now)) else None);
      Unchanged(e.s, e.s.(pol := p));
      ModeChangedFollows(c, w, e.s.(pol := p), e.s.pol.s.mode, now);
      FollowsOn(e.s, e.s.(pol := p), ModeChanged(c, w, e.s.(pol := p), e.s.pol.s.mode, now));
    case Tick =>
      var s := e.s.(park := e.s.park.(since := now),
                    supply := if e.s.supply.borrow.Some? then e.s.supply.(clock := now) else e.s.supply);
      Unchanged(e.s, s);
      AppliedAllFollows(c, w, s, e.boot.pending, ActiveIds(e.warnings, now), now);
      FollowsOn(e.s, s, AppliedAll(c, w, s, e.boot.pending, ActiveIds(e.warnings, now), now));
    case Cmd(cmd) => AppliedFollows(c, w, e.s, cmd, ActiveIds(e.warnings, now), now);
    case _ =>
  }

  lemma {:induction false} StepFollows(c: Config, w: World, e: Engine, ev: Event, now: int)
    requires !Adopts(e, ev)
    ensures Follows(e.s, Step(c, w, e, ev, now).s)
  {
    hide Follows, SteppedAndSaved, Prepared, Step;
    StepFactors(c, w, e, ev, now);
    if Steps(e, ev, now) {
      var p := Prepared(c, w, e, ev, now);
      PreparedFollows(c, w, e, ev, now);
      SteppedFollows(c, w, p, now);
      FollowsOn(e.s, p.s, Step(c, w, e, ev, now).s);
    } else {
      if ev.OwnState? { UnadoptedKeeps(c, w, e, ev, now); }
      Unchanged(e.s, Step(c, w, e, ev, now).s);
    }
  }

  /** In every stretch of a run without adoption: a borrow powerseq does not own is still held at the end, unless in
      between its restore was published or powerseq took over. No failing save, repark, mode change or timeout loses it. */
  lemma {:induction false} BorrowOnlyGivenUp(c: Config, w: World, start: Engine, run: seq<Timed>, i: nat, j: nat)
    requires i <= j <= |run| && forall k :: i <= k < j ==> !Adopts(After(c, w, start, run, k), run[k].event)
    ensures Follows(After(c, w, start, run, i).s, After(c, w, start, run, j).s)
    decreases j - i
  {
    hide Follows, Step, Adopts;
    if i == j {
      Unchanged(After(c, w, start, run, i).s, After(c, w, start, run, i).s);
    } else {
      BorrowOnlyGivenUp(c, w, start, run, i, j - 1);
      StepFollows(c, w, After(c, w, start, run, j - 1), run[j - 1].event, run[j - 1].at);
      FollowsOn(After(c, w, start, run, i).s, After(c, w, start, run, j - 1).s, After(c, w, start, run, j).s);
    }
  }

  // ------------------------------------------------------------- after a crash

  /** Wherever the process dies with power switched on and not given up, a start from what is on disk holds a borrow
      again, due for restoring if the saved mode is normal. */
  lemma {:induction false} RestartHoldsBorrow(log: seq<Effect>, n: nat, now: int)
    requires CrashSafe(log) && n <= |log| && Outstanding(log[..n])
    ensures var file := OnDisk(log[..n]); file.Some? && var s := Started(file, LogOf(file), now).s;
      && Held(s.supply.borrow) && SameBorrow(s.supply.borrow, file.value.borrow)
      && (s.pol.s.mode == Normal ==> s.supply.borrow.value.restore)
  {}

  // ------------------------------------------------------------- the starts that are not safe

  /** A state message of a storm waiting for its borrowed power, and an engine with no state file that hears it. */
  const WAITING := Published(StormMode, Some(Lock(7, true, false, None, false)), 7, Manual, 1, Some(AwaitingPower),
                             Some(PublishedBorrow(IdleSeq, 1, false)))

  const NO_FILE := Started(None, [], 0)
  const ORPHAN_RUN: seq<Timed> := [Timed(OwnState(Some(WAITING)), 0), Timed(SetConnected(true), 0), Timed(Tick, STARTUP_HOLD)]

  /** An adopted borrow is not on disk, and the first step switches power on before the first save: a crash between
      the two leaves power on with nothing on disk to say so. */
  lemma {:induction false} AdoptedBorrowIsNotSafe(c: Config, w: World)
    requires w(0)
    ensures var log := After(c, w, NO_FILE, ORPHAN_RUN, 3).s.journal.log;
      |log| > 0 && Outstanding(log[..1]) && !DiskHolds(log[..1])
  {
    hide SteppedAndSaved;
    var e := OrphanEngine(c, w);
    var p := Prepared(c, w, e, Tick, STARTUP_HOLD);
    StepFactors(c, w, e, Tick, STARTUP_HOLD);
    assert p.s.journal.log == [] && p.s.park.phase == AwaitingPower && p.s.pol.s.mode == StormMode;
    FirstStepSwitchesOn(c, w, p, STARTUP_HOLD);
    var log := SteppedAndSaved(c, w, p, STARTUP_HOLD).s.journal.log;
    assert log[..1] == [OnTried(true, false)];
    assert [OnTried(true, false)][..0] == [] && Outstanding([]) == false;
  }

  lemma {:induction false} OrphanEngine(c: Config, w: World) returns (e: Engine)
    ensures e == After(c, w, NO_FILE, ORPHAN_RUN, 2)
    ensures e.boot == Boot(true, Some(0), false, true, 0, []) && e.s.journal.log == [] && e.warnings == []
    ensures e.s.park.phase == AwaitingPower && e.s.pol.s.mode == StormMode && e.s.park.lock.Some?
    ensures e.s.supply.borrow == Some(Borrow(IdleSeq, 1000, false, false, false))
  {
    assert After(c, w, NO_FILE, ORPHAN_RUN, 0) == NO_FILE;
    var a := After(c, w, NO_FILE, ORPHAN_RUN, 1);
    assert a == Step(c, w, NO_FILE, OwnState(Some(WAITING)), 0);
    assert a == OwnStateHeard(NO_FILE, Some(WAITING), 0);
    e := After(c, w, NO_FILE, ORPHAN_RUN, 2);
  }

  lemma {:induction false} FirstStepSwitchesOn(c: Config, w: World, p: Engine, now: int)
    requires w(0) && p.s.journal.log == [] && p.s.park.phase == AwaitingPower && p.s.pol.s.mode == StormMode
    requires p.s.park.lock.Some? && p.s.supply.borrow.Some? && !p.s.supply.borrow.value.sent && !p.s.supply.borrow.value.takenOver
    ensures var log := SteppedAndSaved(c, w, p, now).s.journal.log; |log| > 0 && log[0] == OnTried(true, false)
  {
    hide PresenceTracked, TxNoted, BorrowStepped, Persisted, BorrowStarted, ModeChanged;
    var a := PresenceTracked(TxNoted(p.s, now), now);
    assert a == p.s.(watch := a.watch) by { OnlyWatch(p.s, now); }
    var f := LockStepped(c, w, a, p.wind, now);
    assert f.journal.log == [OnTried(true, false)];
    var g := BorrowStepped(c, w, f, now);
    BorrowSteppedFollows(c, w, f, now);
    PersistedFollows(w, g);
  }

  /** A file of lock 3 with its borrow's power on, and a state message of lock 7, parked and with no borrow. */
  const OLD_BORROW := Some(Borrow(IdleSeq, 0, true, false, false))
  const OLD_FILE := Snapshot(Standing(StormMode, Manual, 0, 3, [], [], 0), Some(Lock(3, true, false, None, false)), Grounding,
                             false, OLD_BORROW, 3, None)
  const NEWER := Published(StormMode, Some(Lock(7, true, true, Some(90), false)), 7, Manual, 1, Some(Parked), None)

  const FILE_LOG: seq<Effect> := [Saved(OLD_FILE), OnTried(true, false)]
  const OLD_START := Started(Some(OLD_FILE), FILE_LOG, 0)
  const OVERRULED_RUN: seq<Timed> := [Timed(OwnState(Some(NEWER)), 0), Timed(SetConnected(true), 0), Timed(Tick, STARTUP_HOLD)]

  /** A newer message without the borrow overrules the file that holds it, and the first save forgets it: power is on,
      and neither the engine nor the disk knows. */
  lemma {:induction false} OverruledBorrowIsNotSafe(c: Config, w: World)
    requires w(2)
    ensures FILE_LOG == LogOf(Some(OLD_FILE))
    ensures var s := After(c, w, OLD_START, OVERRULED_RUN, 3).s;
      Outstanding(s.journal.log) && s.supply.borrow.None? && !DiskHolds(s.journal.log)
  {
    hide SteppedAndSaved;
    var e := OverruledEngine(c, w);
    var p := Prepared(c, w, e, Tick, STARTUP_HOLD);
    StepFactors(c, w, e, Tick, STARTUP_HOLD);
    FirstStepSaves(c, w, p, STARTUP_HOLD);
    var t := SteppedAndSaved(c, w, p, STARTUP_HOLD).s;
    var snap := SnapshotOf(t);
    LogReads(FILE_LOG, Saved(snap));
    LogReads([Saved(OLD_FILE)], OnTried(true, false));
    assert [Saved(OLD_FILE)] + [OnTried(true, false)] == FILE_LOG;
  }

  lemma {:induction false} OverruledEngine(c: Config, w: World) returns (e: Engine)
    ensures e == After(c, w, OLD_START, OVERRULED_RUN, 2)
    ensures e.boot.connected && e.boot.firstConnect == Some(0) && !e.boot.ready && e.boot.pending == [] && e.warnings == []
    ensures e.s.journal == Journal(FILE_LOG, None) && e.s.supply.borrow.None?
    ensures e.s.park.phase == Parked && e.s.park.lock.Some? && e.s.pol.s.mode == StormMode
  {
    assert After(c, w, OLD_START, OVERRULED_RUN, 0) == OLD_START;
    var a := After(c, w, OLD_START, OVERRULED_RUN, 1);
    assert a == Step(c, w, OLD_START, OwnState(Some(NEWER)), 0);
    assert a == OwnStateHeard(OLD_START, Some(NEWER), 0);
    e := After(c, w, OLD_START, OVERRULED_RUN, 2);
  }

  /** A parked storm without a borrow does nothing in its first step but save itself. */
  lemma {:induction false} FirstStepSaves(c: Config, w: World, p: Engine, now: int)
    requires p.s.park.phase == Parked && p.s.park.lock.Some? && p.s.pol.s.mode == StormMode && p.s.supply.borrow.None?
    requires p.s.journal.lastPersisted.None? && w(|p.s.journal.log|)
    ensures var t := SteppedAndSaved(c, w, p, now).s;
      t.journal.log == p.s.journal.log + [Saved(SnapshotOf(t))] && t.supply.borrow.None?
  {
    hide PresenceTracked, TxNoted;
    var a := PresenceTracked(TxNoted(p.s, now), now);
    assert a == p.s.(watch := a.watch) by { OnlyWatch(p.s, now); }
  }
}
