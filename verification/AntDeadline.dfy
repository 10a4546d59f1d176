/** How long the lock sequence can take: a deadline that no step moves out, but for the one late borrow. */
module AntDeadline {
  import opened Options
  import opened Policy
  import opened AntModel
  import opened AntEvents
  import opened AntLock
  import opened AntLockRuns
  import opened AntWatch
  import opened AntProgress

  /** The engine's own tick, once a second. */
  const TICK := 1000

  predicate Finished(s: State) { s.park.phase == Parked || s.park.phase == Failed }

  // ------------------------------------------------------------- the summed timeouts

  function Max(a: int, b: int): int { if a > b then a else b }

  function RotateTime(c: Config): int { c.timeouts.rotate + TICK }
  function RetractTime(c: Config): int { c.timeouts.retract + TICK + RotateTime(c) }
  function GroundTime(c: Config): int { Max(c.timeouts.ground, c.timeouts.txQuiet) + TICK + RetractTime(c) }
  /** Everything once, from the start of a borrow: power and devices share one timeout. */
  function WholeTime(c: Config): int { c.timeouts.devices + 2 * TICK + GroundTime(c) }

  /** When the current phase must have been left, a tick aside. */
  function PhaseEnd(c: Config, s: State): int {
    match s.park.phase
    case Rotating => s.park.since + c.timeouts.rotate
    case Retracting => s.park.since + c.timeouts.retract
    case Grounding =>
      var ground := s.park.since + c.timeouts.ground;
      if s.watch.lastTx.Some? then Max(ground, s.watch.lastTx.value + c.timeouts.txQuiet) else ground
    case _ => Max(s.supply.clock + c.timeouts.devices, s.park.since)
  }

  /** When the park must be parked or failed, if no borrow is started on the way. */
  function Deadline(c: Config, s: State): int {
    PhaseEnd(c, s) + TICK + match s.park.phase
      case Rotating => 0
      case Retracting => RotateTime(c)
      case Grounding => RetractTime(c)
      case AwaitingDevices => GroundTime(c)
      case _ => TICK + GroundTime(c)
  }

  /** And with the one late borrow this sequence number may still take. */
  function LatestDeadline(c: Config, s: State): int { Deadline(c, s) + if BorrowLeft(s) then WholeTime(c) else 0 }

  /** At time t the phase has not overstayed, and nothing on record is later than t. */
  predicate Timely(c: Config, s: State, t: int) {
    && t <= PhaseEnd(c, s) && s.park.since <= t
    && (s.park.phase == AwaitingPower || s.park.phase == AwaitingDevices ==> s.supply.clock <= t)
    && (s.watch.lastTx.Some? ==> s.watch.lastTx.value <= t)
  }

  /** Working on a park: a lock whose sequence has not ended. */
  predicate Working(s: State) { s.park.lock.Some? && s.park.phase != Idle && !Finished(s) }

  // ------------------------------------------------------------- one step

  lemma {:induction false} LockStepInTime(c: Config, w: World, s: State, wind: Option<Wind>, last: int, now: int)
    requires c.Valid() && Ok(s) && Working(s) && Timely(c, s, last) && last <= now <= last + TICK && !Transmitting(s.sib)
    ensures var t := LockStepped(c, w, s, wind, now);
      Finished(t) || (Working(t) && Timely(c, t, now) && Deadline(c, t) <= Deadline(c, s))
  {
    hide LockStepped, Ok, Deadline, Timely;
    LockSteppedOk(c, w, s, wind, now);
    match s.park.phase
    case AwaitingPower => PowerInTime(c, w, s, wind, last, now);
    case AwaitingDevices => DevicesInTime(c, w, s, wind, last, now);
    case Grounding => BuildInTime(c, w, s, wind, last, now);
    case _ => ParkInTime(c, w, s, wind, last, now);
  }

  lemma {:induction false} PowerInTime(c: Config, w: World, s: State, wind: Option<Wind>, last: int, now: int)
    requires c.Valid() && s.park.lock.Some? && s.park.phase == AwaitingPower
    requires Timely(c, s, last) && last <= now <= last + TICK
    ensures var t := LockStepped(c, w, s, wind, now); Working(t) && Timely(c, t, now) && Deadline(c, t) <= Deadline(c, s)
  {
    hide OnSent;
    if s.supply.borrow.Some? { OnSentOk(w, s); }
  }

  lemma {:induction false} DevicesInTime(c: Config, w: World, s: State, wind: Option<Wind>, last: int, now: int)
    requires c.Valid() && s.park.lock.Some? && s.park.phase == AwaitingDevices
    requires Timely(c, s, last) && last <= now <= last + TICK
    ensures var t := LockStepped(c, w, s, wind, now); Working(t) && Timely(c, t, now) && Deadline(c, t) <= Deadline(c, s)
  {}

  lemma {:induction false} BuildInTime(c: Config, w: World, s: State, wind: Option<Wind>, last: int, now: int)
    requires c.Valid() && s.park.lock.Some? && s.park.phase == Grounding && !Transmitting(s.sib)
    requires Timely(c, s, last) && last <= now <= last + TICK
    ensures var t := LockStepped(c, w, s, wind, now); Working(t) && Timely(c, t, now) && Deadline(c, t) <= Deadline(c, s)
  {}

  lemma {:induction false} ParkInTime(c: Config, w: World, s: State, wind: Option<Wind>, last: int, now: int)
    requires c.Valid() && Ok(s) && s.park.lock.Some? && (s.park.phase == Retracting || s.park.phase == Rotating)
    requires Timely(c, s, last) && last <= now <= last + TICK
    ensures var t := LockStepped(c, w, s, wind, now);
      Finished(t) || (Working(t) && Timely(c, t, now) && Deadline(c, t) <= Deadline(c, s))
  {
    hide ParkComputed, AtPark, Nudged, ParkTargetNoted, RetractConfirmed, Ok;
    if s.park.phase == Retracting { ParkComputedOk(c, s, wind, now); } else { NotedOk(c, s.sib.rot, s.park, false); }
  }

  /** The step finds a storm's late borrow open and power it may borrow. */
  predicate BorrowDue(c: Config, s: State) { LateBorrowOpen(s) && MayBorrow(c, s) }

  /** A borrow that is due reaches the disk: of all the saves of a step, the one that matters. */
  predicate DueBorrowSaves(c: Config, w: World, s: State) { BorrowDue(c, s) ==> w(|s.journal.log|) }

  /** The late borrow costs at most the whole sequence once more, and only while it is left. */
  lemma {:induction false} LateBorrowInTime(c: Config, w: World, s: State, last: int, now: int)
    requires c.Valid() && Ok(s) && Working(s) && Timely(c, s, last) && last <= now <= last + TICK
    requires DueBorrowSaves(c, w, s)
    ensures var t := LateBorrowed(c, w, s, now);
      && Working(t) && LatestDeadline(c, t) <= LatestDeadline(c, s)
      && ((t.park == s.park && t.supply == s.supply && Timely(c, t, last)) || Timely(c, t, now))
  {
    hide Ok;
    if BorrowDue(c, s) {
      var t := BorrowStarted(c, w, s, now);
      assert LockSeq(t) == LockSeq(s) && t.supply.borrowSeq == LockSeq(s);
      assert t.park.phase == AwaitingPower && t.supply.clock == now;
    }
  }

  /** The state and the deadline it is held to, at time t. */
  predicate InTime(c: Config, s: State, t: int, deadline: int) {
    Finished(s) || (Working(s) && Timely(c, s, t) && LatestDeadline(c, s) <= deadline)
  }

  lemma {:induction false} SteppedInTime(c: Config, w: World, e: Engine, last: int, now: int, deadline: int)
    requires c.Valid() && Ok(e.s) && Working(e.s) && Timely(c, e.s, last) && last <= now <= last + TICK
    requires !Transmitting(e.s.sib) && LatestDeadline(c, e.s) <= deadline
    requires DueBorrowSaves(c, w, e.s)
    ensures InTime(c, SteppedAndSaved(c, w, e, now).s, now, deadline)
  {
    hide LateBorrowed, LockStepped, BorrowStepped, Persisted, PresenceTracked, TxNoted, Ok, Timely, Deadline, BorrowDue, Working, Finished;
    var a := PresenceTracked(TxNoted(e.s, now), now);
    TrackedOk(e.s, now);
    QuietTracked(c, e.s, last, now);
    assert AutoEntered(c, w, a, ActiveIds(e.warnings, now), now) == a by { WorkingMode(a); }
    var d := LateBorrowed(c, w, a, now);
    var f := if d.park.lock.Some? then LockStepped(c, w, d, e.wind, now) else d;
    var g := BorrowStepped(c, w, f, now);
    var h := Persisted(w, g);
    LateBorrowInTime(c, w, a, last, now);
    LateBorrowedOk(c, w, a, now);
    WorkingMode(d);
    if Timely(c, d, now) { LockStepInTime(c, w, d, e.wind, now, now); } else { LockStepInTime(c, w, d, e.wind, last, now); }
    LockStepDownward(c, w, d, e.wind, now);
    LockSteppedOk(c, w, d, e.wind, now);
    if !Finished(f) { DeadlineFollows(c, d, f); }
    BorrowSteppedOk(c, w, f, now);
    BorrowStepKeepsSeq(c, w, f, now);
    PersistedOk(w, g);
    SameTiming(c, f, h, now);
  }

  lemma {:induction false} QuietTracked(c: Config, s: State, last: int, now: int)
    requires !Transmitting(s.sib)
    ensures var a := PresenceTracked(TxNoted(s, now), now);
      && a == s.(watch := a.watch) && Working(a) == Working(s) && Timely(c, a, last) == Timely(c, s, last)
      && LatestDeadline(c, a) == LatestDeadline(c, s) && BorrowDue(c, a) == BorrowDue(c, s)
  {
    hide BaseManned;
    var a := PresenceTracked(TxNoted(s, now), now);
    assert a == s.(watch := a.watch) && a.watch.lastTx == s.watch.lastTx;
    SameTiming(c, s, a, last);
  }

  lemma {:induction false} WorkingMode(s: State)
    requires Ok(s) && Working(s)
    ensures s.pol.s.mode != Normal && s.park.lock.Some?
  {}

  lemma {:induction false} DeadlineFollows(c: Config, s: State, t: State)
    requires SameLock(s, t) && t.supply.borrowSeq == s.supply.borrowSeq && Deadline(c, t) <= Deadline(c, s)
    ensures LatestDeadline(c, t) <= LatestDeadline(c, s)
  {}

  lemma {:induction false} SameTiming(c: Config, s: State, t: State, now: int)
    requires t.park == s.park.(parkSeen := t.park.parkSeen) && t.watch.lastTx == s.watch.lastTx
    requires t.supply.clock == s.supply.clock && t.supply.borrowSeq == s.supply.borrowSeq
    ensures Working(t) == Working(s) && Finished(t) == Finished(s) && Timely(c, t, now) == Timely(c, s, now)
    ensures LatestDeadline(c, t) == LatestDeadline(c, s)
  {}

  // ------------------------------------------------------------- one event

  /** What an event changes before its step either starts another sequence number or leaves the timing alone. */
  lemma {:induction false} PreparedInTime(c: Config, w: World, e: Engine, ev: Event, now: int, last: int, deadline: int)
    requires Ok(e.s) && e.boot.ready && InTime(c, e.s, last, deadline)
    requires !Transmitting(e.s.sib) && !Transmitting(Prepared(c, w, e, ev, now).s.sib)
    requires SameLock(e.s, Prepared(c, w, e, ev, now).s)
    ensures InTime(c, Prepared(c, w, e, ev, now).s, last, deadline)
    ensures Prepared(c, w, e, ev, now).s.park.phase == e.s.park.phase
  {
    hide InTime, Heard, Applied, NinaPolled, Ok;
    var p := Prepared(c, w, e, ev, now).s;
    assert p.park == e.s.park.(parkSeen := p.park.parkSeen) && p.supply == e.s.supply && p.watch.lastTx == e.s.watch.lastTx by {
      match ev
      case Bus(m) =>
        HeardKeeps(c, e.s, m, now);
        QuietHeard(c, e.s, m, now);
      case NinaResult(found) => NinaSame(c, w, e.s, found, now);
      case Cmd(cmd) => AppliedSame(c, w, e.s, cmd, ActiveIds(e.warnings, now), now);
      case _ =>
    }
    StaysInTime(c, e.s, p, last, deadline);
  }

  lemma {:induction false} StaysInTime(c: Config, s: State, t: State, last: int, deadline: int)
    requires t.park == s.park.(parkSeen := t.park.parkSeen) && t.supply == s.supply && t.watch.lastTx == s.watch.lastTx
    ensures InTime(c, t, last, deadline) == InTime(c, s, last, deadline)
  {}

  lemma {:induction false} QuietHeard(c: Config, s: State, m: Message, now: int)
    requires !Transmitting(s.sib) && !Transmitting(Heard(c, s, m, now).sib)
    ensures Heard(c, s, m, now).watch.lastTx == s.watch.lastTx
  {}

  lemma {:induction false} NinaSame(c: Config, w: World, s: State, found: Option<seq<Warning>>, now: int)
    requires Ok(s) && SameLock(s, NinaPolled(c, w, s, found, now))
    ensures var t := NinaPolled(c, w, s, found, now); t.park == s.park && t.supply == s.supply && t.watch == s.watch
  {}

  lemma {:induction false} AppliedSame(c: Config, w: World, s: State, cmd: Command, active: seq<Id>, now: int)
    requires Ok(s) && SameLock(s, Applied(c, w, s, cmd, active, now))
    ensures var t := Applied(c, w, s, cmd, active, now); t.park == s.park && t.supply == s.supply && t.watch == s.watch
  {
    hide ModeChanged, ParkRestarted, ModeSet;
    if cmd.action.SetAntMode? && cmd.action.mode.Some? {
      var p := ModeSet(s.pol, cmd.action.mode.value, now, active);
      ModeSetPoliced(s.pol, cmd.action.mode.value, now, active);
      if p.s.mode != s.pol.s.mode { ModeChangedOk(c, w, s.(pol := p), s.pol.s.mode, s.pol.s.seq_, now); }
    } else if cmd.action.ReparkAction? && s.pol.s.mode != Normal {
      ParkRestartedOk(c, w, s.(pol := Reparked(s.pol)), now);
    }
  }

  /** A sequence number that is still there after two moves was there all along. */
  lemma {:induction false} SameThrough(s: State, p: State, t: State)
    requires Ok(s) && Moved(s, p) && Moved(p, t) && SameLock(s, t)
    ensures SameLock(s, p)
  {}

  // ------------------------------------------------------------- over runs

  /** The time of the last step before event k, counted from event i; t0 if none. */
  function LastStep(c: Config, w: World, start: Engine, run: seq<Timed>, i: nat, k: nat, t0: int): int
    requires i <= k <= |run|
    decreases k
  {
    if k == i then t0
    else if StepsAt(c, w, start, run, k - 1) then run[k - 1].at
    else LastStep(c, w, start, run, i, k - 1, t0)
  }

  /** From event i to event n: one sequence number, steps at least once a second, a quiet radio, and a borrow saved if it
      falls due. */
  predicate Undisturbed(c: Config, w: World, start: Engine, run: seq<Timed>, i: nat, n: nat, t0: int)
    requires i <= n <= |run|
  {
    && After(c, w, start, run, i).boot.ready
    && (forall k :: i <= k <= n ==>
          && SameLock(After(c, w, start, run, i).s, After(c, w, start, run, k).s)
          && !Transmitting(After(c, w, start, run, k).s.sib))
    && (forall k :: i <= k < n ==>
          && LastStep(c, w, start, run, i, k, t0) <= run[k].at <= LastStep(c, w, start, run, i, k, t0) + TICK
          && (StepsAt(c, w, start, run, k) ==> DueBorrowSaves(c, w, Prepared(c, w, After(c, w, start, run, k), run[k].event, run[k].at).s)))
  }

  lemma {:induction false} StaysReady(c: Config, w: World, e: Engine, ev: Event, now: int)
    requires e.boot.ready
    ensures Step(c, w, e, ev, now).boot.ready && Prepared(c, w, e, ev, now).boot.ready
  {
    hide Heard, Applied, NinaPolled, Stepped, Persisted;
  }

  lemma {:induction false} ReadyThroughout(c: Config, w: World, start: Engine, run: seq<Timed>, i: nat, k: nat)
    requires i <= k <= |run| && After(c, w, start, run, i).boot.ready
    ensures After(c, w, start, run, k).boot.ready
    decreases k
  {
    hide Step;
    if i < k {
      ReadyThroughout(c, w, start, run, i, k - 1);
      StaysReady(c, w, After(c, w, start, run, k - 1), run[k - 1].event, run[k - 1].at);
    }
  }

  lemma {:induction false} EventInTime(c: Config, w: World, start: Engine, run: seq<Timed>, k: nat, last: int, deadline: int)
    requires WellFounded(c, start, run) && k < |run|
    requires var e := After(c, w, start, run, k); var t := After(c, w, start, run, k + 1).s;
      e.boot.ready && InTime(c, e.s, last, deadline) && SameLock(e.s, t) && !Transmitting(e.s.sib) && !Transmitting(t.sib)
      && !Finished(e.s)
    requires StepsAt(c, w, start, run, k) ==> DueBorrowSaves(c, w, Prepared(c, w, After(c, w, start, run, k), run[k].event, run[k].at).s)
    requires last <= run[k].at <= last + TICK
    ensures InTime(c, After(c, w, start, run, k + 1).s, if StepsAt(c, w, start, run, k) then run[k].at else last, deadline)
  {
    hide After, WellFounded, Ok, Steps, Step, Prepared, SteppedAndSaved, InTime, DueBorrowSaves, Moved, SameLock;
    var e, ev, now := After(c, w, start, run, k), run[k].event, run[k].at;
    var t := After(c, w, start, run, k + 1);
    LockAlwaysOk(c, w, start, run, k);
    StepIs(c, w, start, run, k);
    StepFactors(c, w, e, ev, now);
    if Steps(e, ev, now) {
      var p := Prepared(c, w, e, ev, now);
      PreparedOk(c, w, start, run, k);
      PreparedDownward(c, w, e, ev, now);
      SteppedDownward(c, w, p, now);
      SameThrough(e.s, p.s, t.s);
      SteppedWatch(c, w, p, now);
      PreparedInTime(c, w, e, ev, now, last, deadline);
      FinishInTime(c, w, p, last, now, deadline);
    } else {
      UnsteppedWhenReady(c, w, e, ev, now);
      StaysInTime(c, e.s, t.s, last, deadline);
    }
  }

  lemma {:induction false} UnsteppedWhenReady(c: Config, w: World, e: Engine, ev: Event, now: int)
    requires e.boot.ready && !Steps(e, ev, now)
    ensures Step(c, w, e, ev, now).s == e.s
  {}

  lemma {:induction false} FinishInTime(c: Config, w: World, p: Engine, last: int, now: int, deadline: int)
    requires c.Valid() && Ok(p.s) && InTime(c, p.s, last, deadline) && last <= now <= last + TICK
    requires !Transmitting(p.s.sib) && DueBorrowSaves(c, w, p.s)
    requires !Finished(p.s)
    ensures InTime(c, SteppedAndSaved(c, w, p, now).s, now, deadline)
  {
    hide SteppedAndSaved, Ok, DueBorrowSaves;
    SteppedInTime(c, w, p, last, now, deadline);
  }

  /** As long as the sequence has not ended, every step finds it within its deadline. */
  lemma {:induction false} DeadlineHolds(c: Config, w: World, start: Engine, run: seq<Timed>, i: nat, k: nat, n: nat, t0: int, deadline: int)
    requires WellFounded(c, start, run) && i <= k <= n <= |run| && Undisturbed(c, w, start, run, i, n, t0)
    requires InTime(c, After(c, w, start, run, i).s, t0, deadline)
    requires forall m :: i <= m < k ==> !Finished(After(c, w, start, run, m).s)
    ensures InTime(c, After(c, w, start, run, k).s, LastStep(c, w, start, run, i, k, t0), deadline)
    decreases k
  {
    hide After, WellFounded, InTime, StepsAt, DueBorrowSaves, SameLock, Prepared;
    if i < k {
      DeadlineHolds(c, w, start, run, i, k - 1, n, t0, deadline);
      ReadyThroughout(c, w, start, run, i, k - 1);
      SameAsFirst(After(c, w, start, run, i).s, After(c, w, start, run, k - 1).s, After(c, w, start, run, k).s);
      EventInTime(c, w, start, run, k - 1, LastStep(c, w, start, run, i, k - 1, t0), deadline);
    }
  }

  lemma {:induction false} SameAsFirst(a: State, s: State, t: State)
    requires SameLock(a, s) && SameLock(a, t)
    ensures SameLock(s, t)
  {}

  /** With steps at least once a second, a quiet radio and no due borrow whose save fails, a lock that is timely at t0 is parked or
      failed by its deadline: once a step comes later than that, the sequence has ended on the way. */
  lemma {:induction false} ParkedOrFailedInTime(c: Config, w: World, start: Engine, run: seq<Timed>, i: nat, n: nat, t0: int)
    requires WellFounded(c, start, run) && i <= n <= |run| && Undisturbed(c, w, start, run, i, n, t0)
    requires var s := After(c, w, start, run, i).s; Working(s) && Timely(c, s, t0)
    requires LastStep(c, w, start, run, i, n, t0) > LatestDeadline(c, After(c, w, start, run, i).s)
    ensures exists k: nat :: i <= k <= n && Finished(After(c, w, start, run, k).s)
  {
    hide After, Undisturbed, LastStep, Ok, MessageOk;
    if forall k: nat :: i <= k <= n ==> !Finished(After(c, w, start, run, k).s) {
      DeadlineHolds(c, w, start, run, i, n, n, t0, LatestDeadline(c, After(c, w, start, run, i).s));
      TimelyMeansEarly(c, After(c, w, start, run, n).s, LastStep(c, w, start, run, i, n, t0));
      assert false;
    }
  }

  lemma {:induction false} TimelyMeansEarly(c: Config, s: State, t: int)
    requires Working(s) && Timely(c, s, t) && c.Valid()
    ensures t <= LatestDeadline(c, s)
  {}

  // ------------------------------------------------------------- from the start of a lock

  /** A lock whose phase has just started, at time now; power and devices have been awaited since then or before. */
  predicate JustStarted(s: State, now: int) {
    s.park.lock.Some? ==> s.park.since == now && (s.park.phase == AwaitingPower || s.park.phase == AwaitingDevices ==> s.supply.clock <= now)
  }

  /** Either the lock is still the one of s, or it was started at time now. */
  predicate OldOrNew(s: State, t: State, now: int) { SameLock(s, t) || JustStarted(t, now) }

  /** A new lock, timely from its start, must be parked or failed within everything counted twice. */
  lemma {:induction false} NewLockDeadline(c: Config, s: State, now: int)
    requires c.Valid() && s.park.lock.Some? && s.park.phase != Idle && JustStarted(s, now) && !Finished(s)
    requires s.watch.lastTx.Some? ==> s.watch.lastTx.value <= now
    ensures Working(s) && Timely(c, s, now) && LatestDeadline(c, s) <= now + 2 * WholeTime(c)
  {}

  lemma {:induction false} AttachedAtOnce(c: Config, w: World, s: State, now: int)
    requires s.park.lock.Some? && s.park.since == now && (s.park.phase == Grounding || s.park.phase == Retracting)
    ensures JustStarted(BorrowAttached(c, w, s, now), now)
  {}

  lemma {:induction false} RestartedAtOnce(c: Config, w: World, s: State, now: int)
    requires s.park.lock.Some?
    ensures JustStarted(ParkRestarted(c, w, s, now), now)
  {}

  lemma {:induction false} EnteredAtOnce(c: Config, w: World, s: State, from: Mode, seq_: int, now: int)
    requires LockOk(from, s.park.lock, s.park.phase, seq_) && s.pol.s.mode != from
    ensures JustStarted(ModeChanged(c, w, s, from, now), now)
  {
    hide BorrowAttached, ParkRestarted;
    var to := s.pol.s.mode;
    var cleared := s.(park := s.park.(fault := false));
    if to != Normal {
      if from == Normal {
        var l := Lock(s.pol.s.seq_, true, false, None, to == Maintenance);
        AttachedAtOnce(c, w, NudgeBased(cleared.(park := Phased(cleared.park.(lock := Some(l)), Grounding, now))), now);
      } else {
        RestartedAtOnce(c, w, cleared.(park := cleared.park.(lock := Some(s.park.lock.value.(nudge := to == Maintenance)))), now);
      }
    }
  }

  lemma {:induction false} AppliedOldOrNew(c: Config, w: World, s: State, cmd: Command, active: seq<Id>, now: int)
    requires Ok(s)
    ensures OldOrNew(s, Applied(c, w, s, cmd, active, now), now)
  {
    hide ModeChanged, ParkRestarted, ModeSet;
    if cmd.action.SetAntMode? && cmd.action.mode.Some? {
      var p := ModeSet(s.pol, cmd.action.mode.value, now, active);
      ModeSetPoliced(s.pol, cmd.action.mode.value, now, active);
      if p.s.mode != s.pol.s.mode { EnteredAtOnce(c, w, s.(pol := p), s.pol.s.mode, s.pol.s.seq_, now); }
    } else if cmd.action.ReparkAction? && s.pol.s.mode != Normal {
      RestartedAtOnce(c, w, s.(pol := Reparked(s.pol)), now);
    }
  }

  lemma {:induction false} NinaOldOrNew(c: Config, w: World, s: State, found: Option<seq<Warning>>, now: int)
    requires Ok(s)
    ensures OldOrNew(s, NinaPolled(c, w, s, found, now), now)
  {}

  lemma {:induction false} StepKeepsStart(c: Config, w: World, s: State, wind: Option<Wind>, now: int)
    requires c.Valid() && Ok(s) && JustStarted(s, now)
    ensures var d := LateBorrowed(c, w, s, now);
      JustStarted(BorrowStepped(c, w, if d.park.lock.Some? then LockStepped(c, w, d, wind, now) else d, now), now)
  {
    hide LockStepped, BorrowStepped, BorrowStarted, Ok;
    var d := LateBorrowed(c, w, s, now);
    LateBorrowedOk(c, w, s, now);
    LateAtOnce(c, w, s, now);
    if d.park.lock.Some? {
      LockAtOnce(c, w, d, wind, now);
      LockSteppedOk(c, w, d, wind, now);
    }
    var f := if d.park.lock.Some? then LockStepped(c, w, d, wind, now) else d;
    BorrowSteppedOk(c, w, f, now);
    BorrowStepKeepsSeq(c, w, f, now);
  }

  lemma {:induction false} LateAtOnce(c: Config, w: World, s: State, now: int)
    requires JustStarted(s, now)
    ensures JustStarted(LateBorrowed(c, w, s, now), now)
  {}

  lemma {:induction false} LockAtOnce(c: Config, w: World, s: State, wind: Option<Wind>, now: int)
    requires c.Valid() && Ok(s) && s.park.lock.Some? && JustStarted(s, now)
    ensures JustStarted(LockStepped(c, w, s, wind, now), now)
  {
    hide ParkComputed, AtPark, Nudged, ParkTargetNoted, RetractConfirmed, OnSent, Ok, SwitchedOff, RadioQuiet;
    LockStepDownward(c, w, s, wind, now);
    if s.park.phase == Retracting { ParkComputedOk(c, s, wind, now); }
    if s.park.phase == AwaitingPower && s.supply.borrow.Some? { OnSentOk(w, s); }
    if s.park.phase == Rotating { NotedOk(c, s.sib.rot, s.park, false); }
  }

  /** A step whose event or entry check started a lock leaves one just started. */
  lemma {:induction false} SteppedOldOrNew(c: Config, w: World, e: Engine, now: int)
    requires c.Valid() && Ok(e.s)
    ensures JustStarted(e.s, now) ==> JustStarted(SteppedAndSaved(c, w, e, now).s, now)
    ensures OldOrNew(e.s, SteppedAndSaved(c, w, e, now).s, now)
  {
    hide LateBorrowed, LockStepped, BorrowStepped, Persisted, PresenceTracked, TxNoted, Ok, ModeChanged, Evaluated, PresenceNow, JustStarted, SameLock;
    var active := ActiveIds(e.warnings, now);
    var a := PresenceTracked(TxNoted(e.s, now), now);
    TrackedOk(e.s, now);
    var b := AutoEntered(c, w, a, active, now);
    AutoEnteredOk(c, w, a, active, now);
    EntryAtOnce(c, w, a, active, now);
    var d := LateBorrowed(c, w, b, now);
    var f := if d.park.lock.Some? then LockStepped(c, w, d, e.wind, now) else d;
    var g := BorrowStepped(c, w, f, now);
    LateBorrowedOk(c, w, b, now);
    if d.park.lock.Some? { LockSteppedOk(c, w, d, e.wind, now); }
    BorrowSteppedOk(c, w, f, now);
    PersistedOk(w, g);
    if JustStarted(b, now) { StepKeepsStart(c, w, b, e.wind, now); }
    StartCopied(e.s, a, now);
    StartCopied(g, Persisted(w, g), now);
    if d.park.lock.Some? { LockKept(e.s, a, d, f, Persisted(w, g)); } else { NoLockNoStart(Persisted(w, g), now); }
  }

  lemma {:induction false} EntryAtOnce(c: Config, w: World, s: State, active: seq<Id>, now: int)
    requires Ok(s)
    ensures var t := AutoEntered(c, w, s, active, now); t == s || JustStarted(t, now)
  {}

  lemma {:induction false} StartCopied(s: State, t: State, now: int)
    requires t.park == s.park && t.supply == s.supply
    ensures JustStarted(t, now) == JustStarted(s, now)
  {}

  lemma {:induction false} NoLockNoStart(s: State, now: int)
    ensures s.park.lock.None? ==> JustStarted(s, now)
  {}

  lemma {:induction false} LockKept(s: State, a: State, d: State, f: State, t: State)
    requires a.park == s.park && d.park.lock.Some? && Grown(d, f) && t.park == f.park
    ensures d.park.lock == a.park.lock ==> SameLock(s, t)
  {}

  lemma {:induction false} NewLockAtOnce(c: Config, w: World, start: Engine, run: seq<Timed>, i: nat)
    requires WellFounded(c, start, run) && i < |run| && StepsAt(c, w, start, run, i) && After(c, w, start, run, i).boot.ready
    requires After(c, w, start, run, i + 1).s.park.lock.Some?
    requires !SameLock(After(c, w, start, run, i).s, After(c, w, start, run, i + 1).s)
    ensures JustStarted(After(c, w, start, run, i + 1).s, run[i].at)
  {
    hide After, Ok, Steps, Step, Prepared, SteppedAndSaved, JustStarted, SameLock, MessageOk;
    var e, ev, now := After(c, w, start, run, i), run[i].event, run[i].at;
    LockAlwaysOk(c, w, start, run, i);
    StepIs(c, w, start, run, i);
    StepFactors(c, w, e, ev, now);
    var p := Prepared(c, w, e, ev, now);
    PreparedOk(c, w, start, run, i);
    PreparedOldOrNew(c, w, e, ev, now);
    SteppedOldOrNew(c, w, p, now);
    if SameLock(e.s, p.s) && SameLock(p.s, After(c, w, start, run, i + 1).s) {
      SameTwice(e.s, p.s, After(c, w, start, run, i + 1).s);
    }
  }

  lemma {:induction false} SameTwice(s: State, p: State, t: State)
    requires SameLock(s, p) && SameLock(p, t)
    ensures SameLock(s, t)
  {}

  lemma {:induction false} PreparedOldOrNew(c: Config, w: World, e: Engine, ev: Event, now: int)
    requires Ok(e.s) && e.boot.ready
    ensures OldOrNew(e.s, Prepared(c, w, e, ev, now).s, now)
  {
    hide Heard, Applied, NinaPolled, Ok;
    match ev
    case Bus(m) => HeardKeeps(c, e.s, m, now);
    case NinaResult(found) => NinaOldOrNew(c, w, e.s, found, now);
    case Cmd(cmd) => AppliedOldOrNew(c, w, e.s, cmd, ActiveIds(e.warnings, now), now);
    case _ =>
  }

  lemma {:induction false} CommandsKeepStart(c: Config, w: World, s: State, cmds: seq<Command>, active: seq<Id>, now: int)
    requires Ok(s) && JustStarted(s, now)
    ensures JustStarted(AppliedAll(c, w, s, cmds, active, now), now)
    decreases |cmds|
  {
    hide Applied, Ok;
    if cmds != [] {
      var front := cmds[..|cmds| - 1];
      var mid := AppliedAll(c, w, s, front, active, now);
      CommandsKeepStart(c, w, s, front, active, now);
      AppliedAllOk(c, w, s, front, active, now);
      AppliedOldOrNew(c, w, mid, cmds[|cmds| - 1], active, now);
      if SameLock(mid, Applied(c, w, mid, cmds[|cmds| - 1], active, now)) { AppliedSame(c, w, mid, cmds[|cmds| - 1], active, now); }
    }
  }

  /** Until the startup hold ends the borrow clock is that of the start or of an adoption. */
  lemma {:induction false} ClockIsPast(c: Config, w: World, start: Engine, run: seq<Timed>, i: nat)
    requires Ordered(run) && 0 < i <= |run| && start.s.supply.clock <= run[0].at && !After(c, w, start, run, i).boot.ready
    ensures After(c, w, start, run, i).s.supply.clock <= run[i - 1].at
  {
    hide After, Step;
    StepIs(c, w, start, run, i - 1);
    HoldKeepsClock(c, w, After(c, w, start, run, i - 1), run[i - 1].event, run[i - 1].at);
    if i > 1 { ClockIsPast(c, w, start, run, i - 1); }
  }

  lemma {:induction false} HoldKeepsClock(c: Config, w: World, e: Engine, ev: Event, now: int)
    requires !Step(c, w, e, ev, now).boot.ready
    ensures !e.boot.ready && Step(c, w, e, ev, now).s.supply.clock in {e.s.supply.clock, now}
  {
    hide Heard, Applied, NinaPolled, Stepped, Persisted, AppliedAll;
    if ev.Bus? { HeardKeeps(c, e.s, ev.message, now); }
    if e.boot.ready { StaysReady(c, w, e, ev, now); }
  }

  /** The tick that ends the startup hold starts every phase it resumes anew: loaded, adopted or entered by a queued
      command, a lock standing after it has just started. */
  lemma {:induction false} ResumedAtOnce(c: Config, w: World, start: Engine, run: seq<Timed>, i: nat)
    requires WellFounded(c, start, run) && Ordered(run) && i < |run| && start.s.supply.clock <= run[0].at
    requires StepsAt(c, w, start, run, i) && !After(c, w, start, run, i).boot.ready
    ensures JustStarted(After(c, w, start, run, i + 1).s, run[i].at)
  {
    hide After, Ok, Step, AppliedAll, SteppedAndSaved, JustStarted, MessageOk;
    var e, ev, now := After(c, w, start, run, i), run[i].event, run[i].at;
    LockAlwaysOk(c, w, start, run, i);
    StepIs(c, w, start, run, i);
    StepFactors(c, w, e, ev, now);
    PreparedOk(c, w, start, run, i);
    var s := e.s.(park := e.s.park.(since := now),
                  supply := if e.s.supply.borrow.Some? then e.s.supply.(clock := now) else e.s.supply);
    ClockedOk(e.s, s);
    if i > 0 { ClockIsPast(c, w, start, run, i); } else { StartIs(c, w, start, run); }
    ResumedPhase(s, now);
    CommandsKeepStart(c, w, s, e.boot.pending, ActiveIds(e.warnings, now), now);
    SteppedOldOrNew(c, w, Prepared(c, w, e, ev, now), now);
  }

  lemma {:induction false} ResumedPhase(s: State, now: int)
    requires s.park.since == now && s.supply.clock <= now
    ensures JustStarted(s, now)
  {}

  /** No transmission is on record from the future. */
  lemma {:induction false} TxIsPast(c: Config, w: World, start: Engine, run: seq<Timed>, i: nat)
    requires WellFounded(c, start, run) && Ordered(run) && start.s.watch.lastTx.None? && 0 < i <= |run|
    ensures var a := After(c, w, start, run, i).s.watch.lastTx; a.Some? ==> a.value <= run[i - 1].at
  {
    hide After, Ok, Steps, Step, Prepared, SteppedAndSaved, MessageOk;
    var e, ev, now := After(c, w, start, run, i - 1), run[i - 1].event, run[i - 1].at;
    if i > 1 { TxIsPast(c, w, start, run, i - 1); }
    StepIs(c, w, start, run, i - 1);
    StepFactors(c, w, e, ev, now);
    if Steps(e, ev, now) {
      var p := Prepared(c, w, e, ev, now);
      PreparedOk(c, w, start, run, i - 1);
      PreparedWatch(c, w, e, ev, now);
      SteppedWatch(c, w, p, now);
      TrackedTx(p.s, now);
    } else {
      UnsteppedWatch(c, w, e, ev, now);
    }
  }

  lemma {:induction false} TrackedTx(s: State, now: int)
    ensures PresenceTracked(TxNoted(s, now), now).watch.lastTx in {s.watch.lastTx, Some(now)}
  {}

  /** The progress of every lock, from the step that enters, reparks or switches it, or from the tick that resumes it at
      the end of the startup hold, whether it was loaded, adopted or queued: with steps at least once a second, a quiet
      radio and no due borrow whose save fails, it is parked or failed within the summed timeouts counted twice. */
  lemma {:induction false} EveryLockParksInTime(c: Config, w: World, start: Engine, run: seq<Timed>, i: nat, n: nat)
    requires WellFounded(c, start, run) && Ordered(run) && start.s.watch.lastTx.None?
    requires i < n <= |run| && StepsAt(c, w, start, run, i) && start.s.supply.clock <= run[0].at
    requires After(c, w, start, run, i + 1).s.park.lock.Some?
    requires !After(c, w, start, run, i).boot.ready || !SameLock(After(c, w, start, run, i).s, After(c, w, start, run, i + 1).s)
    requires Undisturbed(c, w, start, run, i + 1, n, run[i].at)
    requires LastStep(c, w, start, run, i + 1, n, run[i].at) > run[i].at + 2 * WholeTime(c)
    ensures exists k: nat :: i < k <= n && Finished(After(c, w, start, run, k).s)
  {
    hide After, Ok, MessageOk, StepsAt, Undisturbed, LastStep, JustStarted, SameLock, Finished, Working, Timely, LatestDeadline;
    var s := After(c, w, start, run, i + 1).s;
    if !Finished(s) {
      if After(c, w, start, run, i).boot.ready { NewLockAtOnce(c, w, start, run, i); } else { ResumedAtOnce(c, w, start, run, i); }
      TxIsPast(c, w, start, run, i + 1);
      LockAlwaysOk(c, w, start, run, i + 1);
      LockedPhase(s);
      NewLockDeadline(c, s, run[i].at);
      ParkedOrFailedInTime(c, w, start, run, i + 1, n, run[i].at);
    }
  }

  lemma {:induction false} LockedPhase(s: State)
    requires Ok(s) && s.park.lock.Some?
    ensures s.park.phase != Idle
  {}
}
