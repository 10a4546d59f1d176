/** What the engine has seen of the rotator before it believes an operator's nudge: under this very sequence number the
    rotator was heading for the park azimuth, and it has not gone offline since. */
module AntNudge {
  import opened Options
  import opened Policy
  import opened AntModel
  import opened AntEvents
  import opened AntLock
  import opened AntLockRuns
  import opened AntWatch
  import opened AntBorrow
  import opened AntProgress

  /** The rotator is live with the park azimuth as its target; for azimuth 0, which it reports as no target, on a report
      that shows it moving. */
  predicate HeadsForPark(c: Config, ev: Event, s: State) {
    && s.park.lock.Some? && s.park.lock.value.parkAz.Some? && s.sib.rot.Live()
    && var az := s.park.lock.value.parkAz.value;
      if s.sib.rot.target.Some? then WithinTolerance(c, s.sib.rot.target.value, az as real)
      else az == 0 && s.sib.rot.moving && ev.Bus? && ev.message.RotState?
  }

  /** From s to t the park target was seen only if it was before, under the same number, or is now. */
  predicate Seen(c: Config, ev: Event, s: State, t: State) {
    && (t.park.lock.Some? && t.park.parkSeen ==> (s.park.parkSeen && SameLock(s, t)) || HeadsForPark(c, ev, t))
    && Based(s, t)
  }

  /** From s to t the base a nudge must differ from stayed, or a new number took the rotator's target for it. */
  predicate Based(s: State, t: State) {
    t.park.lock.Some? ==> t.park.nudgeBase == if SameLock(s, t) then s.park.nudgeBase else t.sib.rot.target
  }

  lemma {:induction false} SeenOn(c: Config, ev: Event, s: State, t: State, u: State)
    requires Ok(s) && Ok(t) && Moved(s, t) && Moved(t, u) && t.sib == u.sib && Seen(c, ev, s, t) && Seen(c, ev, t, u)
    ensures Seen(c, ev, s, u)
  {}

  /** Nothing about the lock or what was seen has changed. */
  lemma {:induction false} SeenSame(c: Config, ev: Event, s: State, t: State)
    requires t.park.lock == s.park.lock && t.park.parkSeen == s.park.parkSeen && t.park.nudgeBase == s.park.nudgeBase
    ensures Seen(c, ev, s, t)
  {}

  lemma {:induction false} HeardSeen(c: Config, s: State, m: Message, now: int)
    ensures Seen(c, Bus(m), s, Heard(c, s, m, now))
    ensures s.sib.rot.Live() && Heard(c, s, m, now).park.parkSeen ==> Heard(c, s, m, now).sib.rot.Live()
  {}

  // ------------------------------------------------------------- a new lock has seen nothing

  lemma {:induction false} AttachSeen(c: Config, w: World, s: State, now: int)
    ensures var t := BorrowAttached(c, w, s, now);
      t.park.parkSeen == s.park.parkSeen && t.park.nudgeBase == s.park.nudgeBase && t.sib == s.sib
  {}

  /** Nothing has been seen under the lock, and the base is where the rotator is now sent. */
  predicate Unseen(t: State) { !t.park.parkSeen && t.park.nudgeBase == t.sib.rot.target }

  lemma {:induction false} RestartUnseen(c: Config, w: World, s: State, now: int)
    requires s.park.lock.Some?
    ensures Unseen(ParkRestarted(c, w, s, now))
  {
    hide BorrowAttached;
    var l := s.park.lock.value.(seq_ := s.pol.s.seq_, parkAz := None);
    var k := Park(Some(l), if l.retract then Retracting else Grounding, now, false, s.park.nudgeBase, s.park.parkSeen);
    AttachSeen(c, w, NudgeBased(s.(park := k)), now);
  }

  lemma {:induction false} EntryUnseen(c: Config, w: World, s: State, from: Mode, now: int)
    requires s.park.lock.Some? <==> from != Normal
    requires s.pol.s.mode != from && s.pol.s.mode != Normal
    ensures Unseen(ModeChanged(c, w, s, from, now))
  {
    hide BorrowAttached, ParkRestarted;
    var to := s.pol.s.mode;
    var cleared := s.(park := s.park.(fault := false));
    if from == Normal {
      var l := Lock(s.pol.s.seq_, true, false, None, to == Maintenance);
      AttachSeen(c, w, NudgeBased(cleared.(park := Phased(cleared.park.(lock := Some(l)), Grounding, now))), now);
    } else {
      RestartUnseen(c, w, cleared.(park := cleared.park.(lock := Some(s.park.lock.value.(nudge := to == Maintenance)))), now);
    }
  }

  lemma {:induction false} ModeMoveSeen(c: Config, w: World, ev: Event, s: State, p: Pol, now: int)
    requires Ok(s) && Policed(s.pol, p)
    ensures Seen(c, ev, s, if p.s.mode == s.pol.s.mode then s.(pol := p) else ModeChanged(c, w, s.(pol := p), s.pol.s.mode, now))
  {
    hide ModeChanged;
    SeenSame(c, ev, s, s.(pol := p));
    if p.s.mode != s.pol.s.mode {
      ModeChangedOk(c, w, s.(pol := p), s.pol.s.mode, s.pol.s.seq_, now);
      if p.s.mode != Normal { EntryUnseen(c, w, s.(pol := p), s.pol.s.mode, now); }
    }
  }

  lemma {:induction false} CommandSeen(c: Config, w: World, ev: Event, s: State, cmd: Command, active: seq<Id>, now: int)
    requires Ok(s)
    ensures Seen(c, ev, s, Applied(c, w, s, cmd, active, now)) && Applied(c, w, s, cmd, active, now).sib == s.sib
  {
    hide ModeChanged, ParkRestarted, ModeSet, Seen, Ok;
    SeenSame(c, ev, s, s);
    match cmd.action
    case SetAntMode(mode) =>
      if mode.Some? {
        ModeSetPoliced(s.pol, mode.value, now, active);
        ModeMoveSeen(c, w, ev, s, ModeSet(s.pol, mode.value, now, active), now);
        ModeWatch(c, w, s.(pol := ModeSet(s.pol, mode.value, now, active)), s.pol.s.mode, now);
      }
    case ReparkAction =>
      if s.pol.s.mode != Normal {
        LockedWhenNotNormal(s);
        ReparkUnseen(c, w, s, now);
        RestartWatch(c, w, s.(pol := Reparked(s.pol)), now);
        UnseenIsSeen(c, ev, s, ParkRestarted(c, w, s.(pol := Reparked(s.pol)), now));
      }
    case DismissAction => SeenSame(c, ev, s, s.(pol := Dismissed(s.pol, active)));
    case OtherAction =>
  }

  lemma {:induction false} ReparkUnseen(c: Config, w: World, s: State, now: int)
    requires Ok(s) && s.pol.s.mode != Normal
    ensures var t := ParkRestarted(c, w, s.(pol := Reparked(s.pol)), now); Unseen(t) && !SameLock(s, t)
  {
    hide ParkRestarted;
    RestartUnseen(c, w, s.(pol := Reparked(s.pol)), now);
    ParkRestartedOk(c, w, s.(pol := Reparked(s.pol)), now);
  }

  lemma {:induction false} LockedWhenNotNormal(s: State)
    requires Ok(s)
    ensures s.park.lock.Some? <==> s.pol.s.mode != Normal
  {}

  lemma {:induction false} UnseenIsSeen(c: Config, ev: Event, s: State, t: State)
    requires Unseen(t) && !SameLock(s, t)
    ensures Seen(c, ev, s, t)
  {}

  lemma {:induction false} CommandsSeen(c: Config, w: World, ev: Event, s: State, cmds: seq<Command>, active: seq<Id>, now: int)
    requires Ok(s)
    ensures Seen(c, ev, s, AppliedAll(c, w, s, cmds, active, now)) && AppliedAll(c, w, s, cmds, active, now).sib == s.sib
    decreases |cmds|
  {
    hide Applied, Ok, Moved, Seen;
    if cmds == [] {
      SeenSame(c, ev, s, s);
    } else {
      var front := cmds[..|cmds| - 1];
      var mid := AppliedAll(c, w, s, front, active, now);
      CommandsSeen(c, w, ev, s, front, active, now);
      AppliedAllOk(c, w, s, front, active, now);
      CommandSeen(c, w, ev, mid, cmds[|cmds| - 1], active, now);
      AppliedOk(c, w, mid, cmds[|cmds| - 1], active, now);
      SeenOn(c, ev, s, mid, Applied(c, w, mid, cmds[|cmds| - 1], active, now));
    }
  }

  lemma {:induction false} PreparedSeen(c: Config, w: World, e: Engine, ev: Event, now: int)
    requires Ok(e.s)
    ensures Seen(c, ev, e.s, Prepared(c, w, e, ev, now).s)
  {
    hide Heard, NinaPolled, AppliedAll, Applied, Ok, Seen;
    SeenSame(c, ev, e.s, e.s);
    match ev
    case Bus(m) => HeardSeen(c, e.s, m, now);
    case NinaResult(found) => NinaSeen(c, w, ev, e.s, found, now);
    case Tick =>
      var s := e.s.(park := e.s.park.(since := now),
                    supply := if e.s.supply.borrow.Some? then e.s.supply.(clock := now) else e.s.supply);
      ClockedOk(e.s, s);
      CommandsSeen(c, w, ev, s, e.boot.pending, ActiveIds(e.warnings, now), now);
      SeenFromClocked(c, ev, e.s, s, AppliedAll(c, w, s, e.boot.pending, ActiveIds(e.warnings, now), now));
    case Cmd(cmd) => CommandSeen(c, w, ev, e.s, cmd, ActiveIds(e.warnings, now), now);
    case _ =>
  }

  lemma {:induction false} NinaSeen(c: Config, w: World, ev: Event, s: State, found: Option<seq<Warning>>, now: int)
    requires Ok(s)
    ensures Seen(c, ev, s, NinaPolled(c, w, s, found, now))
  {
    hide ModeChanged, Polled, Seen, Ok;
    var active := if found.Some? then Some(ActiveIds(found.value, now)) else None;
    PolledPoliced(c.policy, s.pol, now, active);
    ModeMoveSeen(c, w, ev, s, Polled(c.policy, s.pol, now, active), now);
  }

  lemma {:induction false} SeenFromClocked(c: Config, ev: Event, s: State, a: State, t: State)
    requires a.park.lock == s.park.lock && a.park.parkSeen == s.park.parkSeen && a.park.nudgeBase == s.park.nudgeBase
    requires Seen(c, ev, a, t)
    ensures Seen(c, ev, s, t)
  {}

  // ------------------------------------------------------------- one step

  lemma {:induction false} LockStepSeen(c: Config, w: World, ev: Event, s: State, wind: Option<Wind>, now: int)
    requires c.Valid() && s.park.lock.Some? && Ok(s)
    ensures Seen(c, ev, s, LockStepped(c, w, s, wind, now))
  {
    hide AtPark, Nudged, OnSent, RadioQuiet, RetractConfirmed, ParkAzimuth, Based, Ok;
    LockSteppedOk(c, w, s, wind, now);
    LockStepBased(c, w, s, wind, now);
    if s.park.phase == AwaitingPower && s.supply.borrow.Some? { OnSentOk(w, s); }
  }

  lemma {:induction false} LockStepBased(c: Config, w: World, s: State, wind: Option<Wind>, now: int)
    requires c.Valid() && s.park.lock.Some? && Ok(s)
    ensures Based(s, LockStepped(c, w, s, wind, now))
  {
    hide AtPark, Nudged, OnSent, RadioQuiet, RetractConfirmed, ParkTargetNoted, ParkAzimuth;
    LockSteppedOk(c, w, s, wind, now);
    NoteKeepsBase(c);
    if s.park.phase == AwaitingPower && s.supply.borrow.Some? { OnSentOk(w, s); }
  }

  lemma {:induction false} NoteKeepsBase(c: Config)
    ensures forall rot: Rotator, k: Park, reported: bool :: var t := ParkTargetNoted(c, rot, k, reported);
      t == k.(parkSeen := t.parkSeen)
  {}

  lemma {:induction false} StepSeen(c: Config, w: World, ev: Event, e: Engine, now: int)
    requires c.Valid() && Ok(e.s)
    ensures Seen(c, ev, e.s, SteppedAndSaved(c, w, e, now).s)
  {
    hide AutoEntered, LateBorrowed, LockStepped, BorrowStepped, Persisted, PresenceTracked, TxNoted, Ok, Seen, Moved;
    var active := ActiveIds(e.warnings, now);
    var a := PresenceTracked(TxNoted(e.s, now), now);
    TrackedOk(e.s, now);
    TrackedMoved(e.s, a);
    SeenSame(c, ev, e.s, a);
    var b := AutoEntered(c, w, a, active, now);
    AutoEnteredOk(c, w, a, active, now);
    EntrySeen(c, w, ev, a, active, now);
    SeenOn(c, ev, e.s, a, b);
    MovedOn(e.s, a, b);
    var d := LateBorrowed(c, w, b, now);
    LateBorrowedOk(c, w, b, now);
    LateSeen(c, w, ev, b, now);
    SeenOn(c, ev, e.s, b, d);
    MovedOn(e.s, b, d);
    var f := if d.park.lock.Some? then LockStepped(c, w, d, e.wind, now) else d;
    if d.park.lock.Some? {
      LockSteppedOk(c, w, d, e.wind, now);
      GrownMoved(d, f);
      LockStepSeen(c, w, ev, d, e.wind, now);
    } else {
      StaysOk(d, now);
      SeenSame(c, ev, d, d);
    }
    SeenOn(c, ev, e.s, d, f);
    MovedOn(e.s, d, f);
    var g := BorrowStepped(c, w, f, now);
    BorrowSteppedOk(c, w, f, now);
    var h := Persisted(w, g);
    PersistedOk(w, g);
    SeenSame(c, ev, f, h);
    GrownMoved(f, h);
    SeenOn(c, ev, e.s, f, h);
  }

  lemma {:induction false} EntrySeen(c: Config, w: World, ev: Event, s: State, active: seq<Id>, now: int)
    requires Ok(s)
    ensures Seen(c, ev, s, AutoEntered(c, w, s, active, now))
  {
    hide ModeChanged, PresenceNow, Seen;
    var p := Evaluated(c.policy, s.pol, now, active, PresenceNow(s, now));
    assert Policed(s.pol, p);
    ModeMoveSeen(c, w, ev, s, p, now);
    SeenSame(c, ev, s, s);
  }

  lemma {:induction false} LateSeen(c: Config, w: World, ev: Event, s: State, now: int)
    ensures Seen(c, ev, s, LateBorrowed(c, w, s, now))
  {}

  /** One event: the park target is seen only if it was, under the same number, or is now. */
  lemma {:induction false} EventSeen(c: Config, w: World, start: Engine, run: seq<Timed>, i: nat)
    requires WellFounded(c, start, run) && i < |run| && !run[i].event.OwnState?
    ensures Seen(c, run[i].event, After(c, w, start, run, i).s, After(c, w, start, run, i + 1).s)
  {
    hide After, Ok, Steps, Step, Prepared, SteppedAndSaved, MessageOk, Seen, Moved;
    var e, ev, now := After(c, w, start, run, i), run[i].event, run[i].at;
    LockAlwaysOk(c, w, start, run, i);
    StepIs(c, w, start, run, i);
    StepFactors(c, w, e, ev, now);
    var p := Prepared(c, w, e, ev, now);
    PreparedSeen(c, w, e, ev, now);
    if Steps(e, ev, now) {
      PreparedOk(c, w, start, run, i);
      PreparedDownward(c, w, e, ev, now);
      SteppedDownward(c, w, p, now);
      SteppedWatch(c, w, p, now);
      StepSeen(c, w, ev, p, now);
      SeenOn(c, ev, e.s, p.s, After(c, w, start, run, i + 1).s);
    } else {
      UnsteppedSeen(c, w, e, ev, now);
    }
  }

  lemma {:induction false} UnsteppedSeen(c: Config, w: World, e: Engine, ev: Event, now: int)
    requires !Steps(e, ev, now) && !ev.OwnState?
    ensures Seen(c, ev, e.s, Step(c, w, e, ev, now).s)
  {
    hide Heard, SteppedAndSaved, BecameReady, Seen;
    SeenSame(c, ev, e.s, e.s);
    if ev.Bus? { HeardSeen(c, e.s, ev.message, now); }
  }

  /** As long as it counts as seen the rotator stays live: going offline forgets it. */
  lemma {:induction false} SeenStaysLive(c: Config, w: World, start: Engine, run: seq<Timed>, i: nat)
    requires WellFounded(c, start, run) && i < |run| && !run[i].event.OwnState?
    requires After(c, w, start, run, i).s.sib.rot.Live()
    requires var t := After(c, w, start, run, i + 1).s; t.park.lock.Some? && t.park.parkSeen
    ensures After(c, w, start, run, i + 1).s.sib.rot.Live()
  {
    hide After, Ok, Steps, Step, Prepared, SteppedAndSaved, MessageOk;
    var e, ev, now := After(c, w, start, run, i), run[i].event, run[i].at;
    StepIs(c, w, start, run, i);
    StepFactors(c, w, e, ev, now);
    PreparedLive(c, w, e, ev, now);
    if Steps(e, ev, now) {
      PreparedOk(c, w, start, run, i);
      SteppedWatch(c, w, Prepared(c, w, e, ev, now), now);
      StepSeen(c, w, ev, Prepared(c, w, e, ev, now), now);
    } else {
      UnsteppedLive(c, w, e, ev, now);
    }
  }

  lemma {:induction false} PreparedLive(c: Config, w: World, e: Engine, ev: Event, now: int)
    requires e.s.sib.rot.Live()
    ensures Prepared(c, w, e, ev, now).s.park.parkSeen ==> Prepared(c, w, e, ev, now).s.sib.rot.Live()
  {
    hide Heard, ModeChanged, AppliedAll, Applied, Polled;
    match ev
    case Bus(m) => HeardSeen(c, e.s, m, now);
    case NinaResult(found) =>
      var p := Polled(c.policy, e.s.pol, now, if found.Some? then Some(ActiveIds(found.value, now)) else None);
      ModeWatch(c, w, e.s.(pol := p), e.s.pol.s.mode, now);
    case Tick =>
      AppliedAllSib(c, w, e.s.(park := e.s.park.(since := now),
                               supply := if e.s.supply.borrow.Some? then e.s.supply.(clock := now) else e.s.supply),
                    e.boot.pending, ActiveIds(e.warnings, now), now);
    case Cmd(cmd) => AppliedSib(c, w, e.s, cmd, ActiveIds(e.warnings, now), now);
    case _ =>
  }

  lemma {:induction false} AppliedSib(c: Config, w: World, s: State, cmd: Command, active: seq<Id>, now: int)
    ensures Applied(c, w, s, cmd, active, now).sib == s.sib
  {
    hide ModeChanged, ParkRestarted, ModeSet;
    match cmd.action
    case SetAntMode(mode) =>
      if mode.Some? { ModeWatch(c, w, s.(pol := ModeSet(s.pol, mode.value, now, active)), s.pol.s.mode, now); }
    case ReparkAction => RestartWatch(c, w, s.(pol := Reparked(s.pol)), now);
    case _ =>
  }

  lemma {:induction false} AppliedAllSib(c: Config, w: World, s: State, cmds: seq<Command>, active: seq<Id>, now: int)
    ensures AppliedAll(c, w, s, cmds, active, now).sib == s.sib
    decreases |cmds|
  {
    hide Applied;
    if cmds != [] {
      AppliedAllSib(c, w, s, cmds[..|cmds| - 1], active, now);
      AppliedSib(c, w, AppliedAll(c, w, s, cmds[..|cmds| - 1], active, now), cmds[|cmds| - 1], active, now);
    }
  }

  lemma {:induction false} UnsteppedLive(c: Config, w: World, e: Engine, ev: Event, now: int)
    requires !Steps(e, ev, now) && !ev.OwnState? && e.s.sib.rot.Live()
    ensures var t := Step(c, w, e, ev, now).s; t.park.parkSeen ==> t.sib.rot.Live()
  {
    hide Heard, SteppedAndSaved, BecameReady;
    if ev.Bus? { HeardSeen(c, e.s, ev.message, now); }
  }

  // ------------------------------------------------------------- over runs

  /** Event m saw the rotator head for the park azimuth. */
  predicate SeenAt(c: Config, w: World, start: Engine, run: seq<Timed>, m: nat)
    requires m < |run|
  {
    !run[m].event.OwnState? && HeadsForPark(c, run[m].event, After(c, w, start, run, m + 1).s)
  }

  /** From event m to event i one sequence number, and the park target counts as seen throughout. */
  predicate SeenSince(c: Config, w: World, start: Engine, run: seq<Timed>, m: nat, i: nat)
    requires m < i <= |run|
  {
    forall k :: m < k <= i ==>
      && SameLock(After(c, w, start, run, i).s, After(c, w, start, run, k).s)
      && After(c, w, start, run, k).s.park.parkSeen
      && (SeenAt(c, w, start, run, m) ==> After(c, w, start, run, k).s.sib.rot.Live())
  }

  /** Event m adopts a lock: what had been seen of an earlier one stands. */
  predicate AdoptsAt(c: Config, w: World, start: Engine, run: seq<Timed>, m: nat)
    requires m < |run|
  {
    Adopts(After(c, w, start, run, m), run[m].event)
  }

  /** It adopts one of another number with the mark set by an earlier one. */
  predicate InheritsAt(c: Config, w: World, start: Engine, run: seq<Timed>, m: nat)
    requires m < |run|
  {
    AdoptsAt(c, w, start, run, m) && BeginsAt(c, w, start, run, m) && After(c, w, start, run, m).s.park.parkSeen
  }

  /** Event m leaves a lock of another number than before it. */
  predicate BeginsAt(c: Config, w: World, start: Engine, run: seq<Timed>, m: nat)
    requires m < |run|
  {
    After(c, w, start, run, m + 1).s.park.lock.Some? && !SameLock(After(c, w, start, run, m).s, After(c, w, start, run, m + 1).s)
  }

  lemma {:induction false} AdoptionKeepsMark(c: Config, w: World, e: Engine, ev: Event, now: int)
    requires Adopts(e, ev)
    ensures var t := Step(c, w, e, ev, now).s;
      t.park.parkSeen == e.s.park.parkSeen && t.park.nudgeBase == e.s.park.nudgeBase && t.sib == e.s.sib && t.park.lock.Some?
  {}

  /** Under this sequence number some event saw the rotator head for the park azimuth, and it has stayed live since. */
  ghost predicate Sighted(c: Config, w: World, start: Engine, run: seq<Timed>, i: nat)
    requires i <= |run|
  {
    exists m: nat :: m < i && SeenAt(c, w, start, run, m) && SeenSince(c, w, start, run, m, i)
  }

  /** The number was adopted with the mark of another one's park azimuth on, and nothing has been seen under it. */
  ghost predicate Inherited(c: Config, w: World, start: Engine, run: seq<Timed>, i: nat)
    requires i <= |run|
  {
    exists m: nat :: m < i && InheritsAt(c, w, start, run, m) && SeenSince(c, w, start, run, m, i) && Unsighted(c, w, start, run, m, i)
  }

  predicate Unsighted(c: Config, w: World, start: Engine, run: seq<Timed>, m: nat, i: nat)
    requires i <= |run|
  {
    forall k :: m < k < i ==> !SeenAt(c, w, start, run, k)
  }

  /** In every run, what a nudge rests on, the park target counting as seen, means what it should, that the rotator was
      seen heading for this lock's park azimuth, exactly unless the lock was adopted over one whose mark was set and
      nothing has been seen since. */
  lemma {:induction false} ParkSeenExactly(c: Config, w: World, start: Engine, run: seq<Timed>, i: nat)
    requires WellFounded(c, start, run) && i <= |run| && !start.s.park.parkSeen
    requires var s := After(c, w, start, run, i).s; s.park.lock.Some? && s.park.parkSeen
    ensures Sighted(c, w, start, run, i) <==> !Inherited(c, w, start, run, i)
  {
    hide After, Ok, MessageOk, SeenAt, InheritsAt, SeenSince;
    SightedOrInherited(c, w, start, run, i);
    if Sighted(c, w, start, run, i) && Inherited(c, w, start, run, i) {
      var m: nat :| m < i && SeenAt(c, w, start, run, m) && SeenSince(c, w, start, run, m, i);
      var n: nat :| n < i && InheritsAt(c, w, start, run, n) && SeenSince(c, w, start, run, n, i) && Unsighted(c, w, start, run, n, i);
      SightedAfter(c, w, start, run, m, n, i);
    }
  }

  /** A sighting under the number of event i lies after the adoption of that number. */
  lemma {:induction false} SightedAfter(c: Config, w: World, start: Engine, run: seq<Timed>, m: nat, n: nat, i: nat)
    requires m < i <= |run| && SeenAt(c, w, start, run, m) && SeenSince(c, w, start, run, m, i)
    requires n < i && InheritsAt(c, w, start, run, n)
    ensures n < m
  {
    hide After, HeadsForPark;
  }

  lemma {:induction false} SightedOrInherited(c: Config, w: World, start: Engine, run: seq<Timed>, i: nat)
    requires WellFounded(c, start, run) && i <= |run| && !start.s.park.parkSeen
    requires var s := After(c, w, start, run, i).s; s.park.lock.Some? && s.park.parkSeen
    ensures Sighted(c, w, start, run, i) || Inherited(c, w, start, run, i)
  {
    hide After, Ok, Step, MessageOk, HeadsForPark, Adopts, Sighted, Inherited;
    StartIs(c, w, start, run);
    var e, ev, now := After(c, w, start, run, i - 1), run[i - 1].event, run[i - 1].at;
    StepIs(c, w, start, run, i - 1);
    if SeenAt(c, w, start, run, i - 1) || InheritsAt(c, w, start, run, i - 1) {
      FoundNow(c, w, start, run, i);
    } else {
      if Adopts(e, ev) {
        AdoptionKeepsMark(c, w, e, ev, now);
        IsOwnState(e, ev);
      } else if ev.OwnState? {
        UnadoptedKeeps(c, w, e, ev, now);
      } else {
        EventSeen(c, w, start, run, i - 1);
      }
      SightedOrInherited(c, w, start, run, i - 1);
      FoundBefore(c, w, start, run, i);
    }
  }

  lemma {:induction false} IsOwnState(e: Engine, ev: Event)
    requires Adopts(e, ev)
    ensures ev.OwnState?
  {}

  lemma {:induction false} FoundNow(c: Config, w: World, start: Engine, run: seq<Timed>, i: nat)
    requires 0 < i <= |run| && (SeenAt(c, w, start, run, i - 1) || InheritsAt(c, w, start, run, i - 1))
    requires var s := After(c, w, start, run, i).s; s.park.lock.Some? && s.park.parkSeen
    ensures Sighted(c, w, start, run, i) || Inherited(c, w, start, run, i)
  {
    hide After, HeadsForPark, Adopts;
    var t := After(c, w, start, run, i).s;
    if SeenAt(c, w, start, run, i - 1) { HeadingIsLive(c, run[i - 1].event, t); }
    assert SameLock(t, t);
    assert SeenSince(c, w, start, run, i - 1, i);
    assert Unsighted(c, w, start, run, i - 1, i);
  }

  lemma {:induction false} FoundBefore(c: Config, w: World, start: Engine, run: seq<Timed>, i: nat)
    requires WellFounded(c, start, run) && 0 < i <= |run| && !SeenAt(c, w, start, run, i - 1)
    requires Sighted(c, w, start, run, i - 1) || Inherited(c, w, start, run, i - 1)
    requires var e := After(c, w, start, run, i - 1).s; var t := After(c, w, start, run, i).s; SameLock(e, t) && t.park.parkSeen
    requires run[i - 1].event.OwnState? ==> After(c, w, start, run, i).s.sib == After(c, w, start, run, i - 1).s.sib
    ensures Sighted(c, w, start, run, i) || Inherited(c, w, start, run, i)
  {
    hide After, Ok, MessageOk, SeenAt, InheritsAt, SeenSince;
    if Sighted(c, w, start, run, i - 1) {
      var m: nat :| m < i - 1 && SeenAt(c, w, start, run, m) && SeenSince(c, w, start, run, m, i - 1);
      SeenLonger(c, w, start, run, m, i);
    } else {
      var m: nat :| m < i - 1 && InheritsAt(c, w, start, run, m) && SeenSince(c, w, start, run, m, i - 1)
                    && Unsighted(c, w, start, run, m, i - 1);
      SeenLonger(c, w, start, run, m, i);
      assert Unsighted(c, w, start, run, m, i);
    }
  }

  lemma {:induction false} HeadingIsLive(c: Config, ev: Event, s: State)
    requires HeadsForPark(c, ev, s)
    ensures s.sib.rot.Live()
  {}

  lemma {:induction false} SeenLonger(c: Config, w: World, start: Engine, run: seq<Timed>, m: nat, i: nat)
    requires WellFounded(c, start, run) && m < i - 1 < |run| && SeenSince(c, w, start, run, m, i - 1)
    requires var e := After(c, w, start, run, i - 1).s; var t := After(c, w, start, run, i).s;
      SameLock(e, t) && t.park.parkSeen
    requires run[i - 1].event.OwnState? ==>
      After(c, w, start, run, i).s.sib == After(c, w, start, run, i - 1).s.sib
    ensures SeenSince(c, w, start, run, m, i)
  {
    hide After, Ok, MessageOk, HeadsForPark;
    if SeenAt(c, w, start, run, m) && !run[i - 1].event.OwnState? { SeenStaysLive(c, w, start, run, i - 1); }
  }

  // ------------------------------------------------------------- the base of a nudge

  /** From event m to event i one sequence number. */
  predicate OneNumber(c: Config, w: World, start: Engine, run: seq<Timed>, m: nat, i: nat)
    requires i <= |run|
  {
    forall k :: m < k <= i ==> SameLock(After(c, w, start, run, i).s, After(c, w, start, run, k).s)
  }

  function BaseAt(c: Config, w: World, start: Engine, run: seq<Timed>, i: nat): Option<real>
    requires i <= |run|
  {
    After(c, w, start, run, i).s.park.nudgeBase
  }

  /** The number of event i began at event m, and its base is from there: the rotator's target, or for an adoption the
      base of before. */
  predicate BaseFrom(c: Config, w: World, start: Engine, run: seq<Timed>, m: nat, i: nat)
    requires m < i <= |run|
  {
    && BeginsAt(c, w, start, run, m) && OneNumber(c, w, start, run, m, i)
    && BaseAt(c, w, start, run, i)
       == if AdoptsAt(c, w, start, run, m) then BaseAt(c, w, start, run, m) else After(c, w, start, run, m + 1).s.sib.rot.target
  }

  predicate BaseFromStart(c: Config, w: World, start: Engine, run: seq<Timed>, i: nat)
    requires i <= |run|
  {
    && (forall k :: 0 <= k <= i ==> SameLock(After(c, w, start, run, i).s, After(c, w, start, run, k).s))
    && BaseAt(c, w, start, run, i) == start.s.park.nudgeBase
  }

  ghost predicate BaseTold(c: Config, w: World, start: Engine, run: seq<Timed>, i: nat)
    requires i <= |run|
  {
    (exists m: nat :: m < i && BaseFrom(c, w, start, run, m, i)) || BaseFromStart(c, w, start, run, i)
  }

  lemma {:induction false} BaseStays(c: Config, w: World, start: Engine, run: seq<Timed>, i: nat)
    requires i < |run| && BaseTold(c, w, start, run, i)
    requires SameLock(After(c, w, start, run, i).s, After(c, w, start, run, i + 1).s)
    requires BaseAt(c, w, start, run, i + 1) == BaseAt(c, w, start, run, i)
    ensures BaseTold(c, w, start, run, i + 1)
  {
    hide After, Adopts;
    if m: nat :| m < i && BaseFrom(c, w, start, run, m, i) {
      assert BaseFrom(c, w, start, run, m, i + 1);
    } else {
      assert BaseFromStart(c, w, start, run, i + 1);
    }
  }

  /** In every run, the base a nudge must differ from is the target the rotator had when this number was entered,
      switched to or reparked; for an adopted number whatever base the engine then had, and for the number of the start
      the one it started with. */
  lemma {:induction false} NudgeBaseMeans(c: Config, w: World, start: Engine, run: seq<Timed>, i: nat)
    requires WellFounded(c, start, run) && i <= |run| && After(c, w, start, run, i).s.park.lock.Some?
    ensures BaseTold(c, w, start, run, i)
  {
    hide After, Ok, Step, MessageOk, Adopts, Seen;
    StartIs(c, w, start, run);
    if i > 0 {
      var e, ev, now := After(c, w, start, run, i - 1), run[i - 1].event, run[i - 1].at;
      var t := After(c, w, start, run, i).s;
      StepIs(c, w, start, run, i - 1);
      BaseStep(c, w, start, run, i - 1);
      if SameLock(e.s, t) {
        NudgeBaseMeans(c, w, start, run, i - 1);
        BaseStays(c, w, start, run, i - 1);
      } else {
        assert BeginsAt(c, w, start, run, i - 1);
        assert SameLock(t, t);
        assert BaseFrom(c, w, start, run, i - 1, i);
      }
    }
  }

  lemma {:induction false} BaseStep(c: Config, w: World, start: Engine, run: seq<Timed>, i: nat)
    requires WellFounded(c, start, run) && i < |run| && After(c, w, start, run, i + 1).s.park.lock.Some?
    ensures var s := After(c, w, start, run, i).s; var t := After(c, w, start, run, i + 1).s;
      t.park.nudgeBase == if SameLock(s, t) || AdoptsAt(c, w, start, run, i) then s.park.nudgeBase else t.sib.rot.target
  {
    hide After, Ok, Step, MessageOk, HeadsForPark, Adopts, SameLock;
    var e, ev, now := After(c, w, start, run, i), run[i].event, run[i].at;
    StepIs(c, w, start, run, i);
    if Adopts(e, ev) {
      AdoptionKeepsMark(c, w, e, ev, now);
    } else if ev.OwnState? {
      UnadoptedKeeps(c, w, e, ev, now);
      SameParkSame(e.s, After(c, w, start, run, i + 1).s);
    } else {
      EventSeen(c, w, start, run, i);
    }
  }

  lemma {:induction false} SameParkSame(s: State, t: State)
    requires t.park == s.park && t.park.lock.Some?
    ensures SameLock(s, t)
  {}
}
